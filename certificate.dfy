/**
 * The add/edit certificate dialog: the form it opens with and the checks
 * before saving. The current year is a parameter.
 */
module Certificate {
  import opened Wrappers
  import opened Text

  datatype CertificateData = CertificateData(id: Option<string>, title: string, issuedBy: string, year: int)

  datatype CertificateError = MissingRequired | InvalidYear

  function Message(e: CertificateError): string {
    match e
    case MissingRequired => "Certificate title and issuing organization are required"
    case InvalidYear => "Please enter a valid year"
  }

  /**
   * The year field holds `parseInt` of the input: a number, or `None` for the
   * NaN an empty or non-numeric input gives.
   */
  type YearField = Option<int>

  /** `year < 1900 || year > currentYear + 1`; both comparisons are false for NaN. */
  predicate YearOutOfRange(year: YearField, currentYear: int) {
    year.Some? && (year.value < 1900 || year.value > currentYear + 1)
  }

  /**
   * `handleSave`'s checks, in order: a signed-in user with a non-blank title
   * and issuer; then a year from 1900 up to next year.
   */
  function Validate(signedIn: bool, title: string, issuedBy: string, year: YearField, currentYear: int): (r: Option<CertificateError>)
    ensures r == Some(MissingRequired) <==> !signedIn || IsBlank(title) || IsBlank(issuedBy)
    ensures r == Some(InvalidYear) <==>
      signedIn && !IsBlank(title) && !IsBlank(issuedBy) && year.Some? && (year.value < 1900 || year.value > currentYear + 1)
  {
    if !signedIn || IsBlank(title) || IsBlank(issuedBy) then Some(MissingRequired)
    else if YearOutOfRange(year, currentYear) then Some(InvalidYear)
    else None
  }

  /**
   * For a complete form, the accepted numeric years are exactly 1900 through
   * next year, and a NaN year is accepted too.
   */
  lemma AcceptedYears(title: string, issuedBy: string, year: YearField, currentYear: int)
    requires !IsBlank(title) && !IsBlank(issuedBy)
    ensures Validate(true, title, issuedBy, year, currentYear).None? <==>
      year.None? || 1900 <= year.value <= currentYear + 1
  {
  }

  /** The dialog's state. */
  class EditCertificateModal {
    var title: string
    var issuedBy: string
    var year: YearField
    var loading: bool
    var error: Option<string>

    constructor(currentYear: int)
      ensures title == "" && issuedBy == "" && year == Some(currentYear) && !loading && error == None
    {
      title, issuedBy, year := "", "", Some(currentYear);
      loading, error := false, None;
    }

    /** The opening effect: the edited certificate's fields, or an empty form for the current year. */
    method Open(editing: Option<CertificateData>, currentYear: int)
      modifies this
      ensures error == None && loading == old(loading)
      ensures editing.Some? ==>
        title == editing.value.title && issuedBy == editing.value.issuedBy && year == Some(editing.value.year)
      ensures editing.None? ==> title == "" && issuedBy == "" && year == Some(currentYear)
    {
      if editing.Some? {
        title, issuedBy, year := editing.value.title, editing.value.issuedBy, Some(editing.value.year);
      } else {
        title, issuedBy, year := "", "", Some(currentYear);
      }
      error := None;
    }

    /** The year input's `onChange`: the parsed value, `None` for NaN, replaces the year. */
    method SetYear(parsed: YearField)
      modifies this
      ensures year == parsed
      ensures title == old(title) && issuedBy == old(issuedBy) && loading == old(loading) && error == old(error)
    {
      year := parsed;
    }

    /** `handleSave`: a failed check sets its message; otherwise the dialog reports success and closes. */
    method Save(user: Option<string>, currentYear: int) returns (closed: bool)
      modifies this
      ensures var v := Validate(user.Some?, old(title), old(issuedBy), old(year), currentYear);
        (closed <==> v.None?)
        && (v.Some? ==> error == Some(Message(v.value)) && loading == old(loading))
        && (v.None? ==> error == None && !loading)
      ensures title == old(title) && issuedBy == old(issuedBy) && year == old(year)
    {
      var v := Validate(user.Some?, title, issuedBy, year, currentYear);
      if v.Some? {
        error := Some(Message(v.value));
        return false;
      }
      loading := true;
      error := None;
      closed := true;
      loading := false;
    }
  }
}
