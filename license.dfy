/**
 * The add/edit license dialog: the form it opens with and the checks before
 * saving. Dates are the `YYYY-MM-DD` strings a date input gives; comparing
 * two `Date` objects built from them compares the calendar days, and a string
 * that is not such a date gives an invalid date, which compares false.
 */
module License {
  import opened Wrappers
  import opened Text
  import opened Dates

  datatype LicenseData = LicenseData(
    id: Option<string>, licenseType: string, issuingAuthority: string, licenseNumber: string,
    issueDate: string, expiryDate: Option<string>)

  function DigitChar(n: int): char
    requires 0 <= n < 10
  {
    ('0' as int + n) as char
  }

  /** `n` written with exactly `width` digits, zero-padded. */
  function Padded(n: nat, width: nat): (s: string)
    ensures |s| == width
    ensures forall i :: 0 <= i < |s| ==> IsDigit(s[i])
  {
    if width == 0 then [] else Padded(n / 10, width - 1) + [DigitChar(n % 10)]
  }

  /** Reading back a padded number gives it again when it fits the width. */
  lemma {:induction false} PaddedValue(n: nat, width: nat)
    requires n < Pow10(width)
    ensures DigitsValue(Padded(n, width)) == n
  {
    if width > 0 {
      var s := Padded(n, width);
      PaddedValue(n / 10, width - 1);
      assert s[..|s| - 1] == Padded(n / 10, width - 1);
    }
  }

  function Pow10(k: nat): nat {
    if k == 0 then 1 else 10 * Pow10(k - 1)
  }

  predicate IsoShaped(s: string) {
    |s| == 10 && s[4] == '-' && s[7] == '-'
    && (forall i :: 0 <= i < 4 ==> IsDigit(s[i]))
    && IsDigit(s[5]) && IsDigit(s[6]) && IsDigit(s[8]) && IsDigit(s[9])
  }

  /** A `YYYY-MM-DD` string read as a calendar date; None when it is not one. */
  function ParseIsoDate(s: string): (r: Option<Date>)
    ensures r.Some? ==> Valid(r.value) && IsoShaped(s)
  {
    if !IsoShaped(s) then None
    else
      var d := Date(DigitsValue(s[..4]), DigitsValue(s[5..7]), DigitsValue(s[8..10]));
      if Valid(d) then Some(d) else None
  }

  /** The `YYYY-MM-DD` string of a date with a four-digit year. */
  function IsoString(d: Date): (s: string)
    requires 0 <= d.year < 10000 && 1 <= d.month <= 12 && 1 <= d.day <= 31
    ensures IsoShaped(s)
  {
    Padded(d.year, 4) + "-" + Padded(d.month, 2) + "-" + Padded(d.day, 2)
  }

  /** Reading a written date gives the date back. */
  lemma ParseIsoString(d: Date)
    requires Valid(d) && 0 <= d.year < 10000
    ensures ParseIsoDate(IsoString(d)) == Some(d)
  {
    var s := IsoString(d);
    PaddedValue(d.year, 4);
    PaddedValue(d.month, 2);
    PaddedValue(d.day, 2);
    assert s[..4] == Padded(d.year, 4);
    assert s[5..7] == Padded(d.month, 2);
    assert s[8..10] == Padded(d.day, 2);
  }

  /** `new Date(expiry) < new Date(issue)`: false unless both are dates. */
  predicate ExpiryBeforeIssue(expiry: string, issue: string) {
    var e := ParseIsoDate(expiry);
    var i := ParseIsoDate(issue);
    e.Some? && i.Some? && DayNumber(e.value) < DayNumber(i.value)
  }

  /** An expiry on the issue date is accepted, and two dates cannot each be before the other. */
  lemma ExpiryOrder(a: string, b: string)
    ensures !ExpiryBeforeIssue(a, a)
    ensures !(ExpiryBeforeIssue(a, b) && ExpiryBeforeIssue(b, a))
  {
  }

  datatype LicenseError = MissingRequired | ExpiryBeforeIssueDate

  function Message(e: LicenseError): string {
    match e
    case MissingRequired => "License type, issuing authority, license number, and issue date are required"
    case ExpiryBeforeIssueDate => "Expiry date cannot be before issue date"
  }

  /**
   * `handleSave`'s checks, in order: a signed-in user, non-blank type,
   * authority and number and a non-empty issue date; then an expiry date,
   * when one is given, not before the issue date.
   */
  function Validate(signedIn: bool, licenseType: string, authority: string, number: string,
                    issueDate: string, expiryDate: string): (r: Option<LicenseError>)
    ensures r == Some(MissingRequired) <==>
      !signedIn || IsBlank(licenseType) || IsBlank(authority) || IsBlank(number) || issueDate == ""
    ensures r == Some(ExpiryBeforeIssueDate) <==>
      signedIn && !IsBlank(licenseType) && !IsBlank(authority) && !IsBlank(number) && issueDate != ""
      && expiryDate != "" && ExpiryBeforeIssue(expiryDate, issueDate)
  {
    if !signedIn || IsBlank(licenseType) || IsBlank(authority) || IsBlank(number) || issueDate == "" then
      Some(MissingRequired)
    else if expiryDate != "" && ExpiryBeforeIssue(expiryDate, issueDate) then Some(ExpiryBeforeIssueDate)
    else None
  }

  /** A license without an expiry date passes the second check whatever its issue date. */
  lemma NoExpiryNeverTooEarly(licenseType: string, authority: string, number: string, issueDate: string)
    requires !IsBlank(licenseType) && !IsBlank(authority) && !IsBlank(number) && issueDate != ""
    ensures Validate(true, licenseType, authority, number, issueDate, "").None?
  {
  }

  /** The dialog's state. */
  class EditLicenseModal {
    var licenseType: string
    var issuingAuthority: string
    var licenseNumber: string
    var issueDate: string
    var expiryDate: string
    var loading: bool
    var error: Option<string>

    constructor()
      ensures licenseType == "" && issuingAuthority == "" && licenseNumber == ""
      ensures issueDate == "" && expiryDate == "" && !loading && error == None
    {
      licenseType, issuingAuthority, licenseNumber := "", "", "";
      issueDate, expiryDate := "", "";
      loading, error := false, None;
    }

    /** The opening effect: the edited license's fields (a missing expiry as empty), or an empty form. */
    method Open(editing: Option<LicenseData>)
      modifies this
      ensures error == None && loading == old(loading)
      ensures editing.Some? ==>
        licenseType == editing.value.licenseType && issuingAuthority == editing.value.issuingAuthority
        && licenseNumber == editing.value.licenseNumber && issueDate == editing.value.issueDate
        && expiryDate == editing.value.expiryDate.GetOr("")
      ensures editing.None? ==>
        licenseType == "" && issuingAuthority == "" && licenseNumber == "" && issueDate == "" && expiryDate == ""
    {
      if editing.Some? {
        var e := editing.value;
        licenseType, issuingAuthority, licenseNumber := e.licenseType, e.issuingAuthority, e.licenseNumber;
        issueDate, expiryDate := e.issueDate, e.expiryDate.GetOr("");
      } else {
        licenseType, issuingAuthority, licenseNumber := "", "", "";
        issueDate, expiryDate := "", "";
      }
      error := None;
    }

    /** `handleSave`: a failed check sets its message; otherwise the dialog reports success and closes. */
    method Save(user: Option<string>) returns (closed: bool)
      modifies this
      ensures var v := Validate(user.Some?, old(licenseType), old(issuingAuthority), old(licenseNumber),
                                old(issueDate), old(expiryDate));
        (closed <==> v.None?)
        && (v.Some? ==> error == Some(Message(v.value)) && loading == old(loading))
        && (v.None? ==> error == None && !loading)
      ensures licenseType == old(licenseType) && issuingAuthority == old(issuingAuthority)
      ensures licenseNumber == old(licenseNumber) && issueDate == old(issueDate) && expiryDate == old(expiryDate)
    {
      var v := Validate(user.Some?, licenseType, issuingAuthority, licenseNumber, issueDate, expiryDate);
      if v.Some? {
        error := Some(Message(v.value));
        return false;
      }
      loading := true;
      error := None;
      closed := true;
      loading := false;
    }
  }
}
