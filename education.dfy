/**
 * The add/edit education dialog: the form it opens with, the checks before
 * saving, the entry it builds and the list it sends to `PUT /doctors/profile`.
 * The clock is a parameter: `currentYear` and the `stamp` used as a new id.
 */
module Education {
  import opened Wrappers
  import opened Text

  /**
   * A year field holding `parseInt` of its input: a number, or `None` for the
   * NaN an emptied or non-numeric input gives (sent as `null` in JSON).
   */
  type YearField = Option<int>

  /** An education entry; `id` and `endYear` may be absent, as in the backend record. */
  datatype EducationData = EducationData(
    id: Option<string>, degree: string, specialization: string, institution: string,
    country: string, startYear: YearField, endYear: Option<int>)

  /** JavaScript truthiness of the end-year field (`number | ''`): present and not zero. */
  predicate Truthy(endYear: Option<int>) {
    endYear.Some? && endYear.value != 0
  }

  datatype EducationError = MissingRequired | EndBeforeStart

  function Message(e: EducationError): string {
    match e
    case MissingRequired => "Degree, institution, and country are required"
    case EndBeforeStart => "End year cannot be before start year"
  }

  /**
   * `handleSave`'s checks, in order: a signed-in user and non-blank degree,
   * institution and country first; then an end year, when one is given,
   * not before the start year. `endYear < startYear` is false when the start
   * year is NaN, so then any end year passes.
   */
  function Validate(signedIn: bool, degree: string, institution: string, country: string,
                    startYear: YearField, endYear: Option<int>): (r: Option<EducationError>)
    ensures r == Some(MissingRequired) <==> !signedIn || IsBlank(degree) || IsBlank(institution) || IsBlank(country)
    ensures r == Some(EndBeforeStart) <==>
      signedIn && !IsBlank(degree) && !IsBlank(institution) && !IsBlank(country)
      && Truthy(endYear) && startYear.Some? && endYear.value < startYear.value
  {
    if !signedIn || IsBlank(degree) || IsBlank(institution) || IsBlank(country) then Some(MissingRequired)
    else if Truthy(endYear) && startYear.Some? && endYear.value < startYear.value then Some(EndBeforeStart)
    else None
  }

  /** With a NaN start year, a complete form passes whatever its end year. */
  lemma NaNStartAcceptsAnyEnd(degree: string, institution: string, country: string, endYear: Option<int>)
    requires !IsBlank(degree) && !IsBlank(institution) && !IsBlank(country)
    ensures Validate(true, degree, institution, country, None, endYear).None?
  {
  }

  /**
   * `newEducation`: the edited entry keeps its id when it has a non-empty
   * one, otherwise the stamp is the id; a zero or empty end year is dropped.
   */
  function NewEntry(editing: Option<EducationData>, stamp: string, degree: string, specialization: string,
                    institution: string, country: string, startYear: YearField, endYear: Option<int>): (e: EducationData)
    ensures e.id.Some?
    ensures editing.Some? && editing.value.id.Some? && editing.value.id.value != "" ==> e.id == editing.value.id
    ensures !(editing.Some? && editing.value.id.Some? && editing.value.id.value != "") ==> e.id == Some(stamp)
    ensures e.endYear.Some? <==> Truthy(endYear)
    ensures e.endYear.Some? ==> e.endYear == endYear
    ensures e.degree == degree && e.institution == institution && e.country == country && e.startYear == startYear
  {
    var id := if editing.Some? && editing.value.id.Some? && editing.value.id.value != "" then editing.value.id.value else stamp;
    EducationData(Some(id), degree, specialization, institution, country, startYear,
      if Truthy(endYear) then endYear else None)
  }

  /**
   * An entry that passed the checks is never saved with a numeric end year
   * before its numeric start year, nor without a degree or country.
   */
  lemma AcceptedEntryIsOrdered(editing: Option<EducationData>, stamp: string, degree: string, specialization: string,
                               institution: string, country: string, startYear: YearField, endYear: Option<int>)
    requires Validate(true, degree, institution, country, startYear, endYear).None?
    ensures var e := NewEntry(editing, stamp, degree, specialization, institution, country, startYear, endYear);
      (e.endYear.Some? && e.startYear.Some? ==> e.endYear.value >= e.startYear.value)
      && !IsBlank(e.degree) && !IsBlank(e.country)
  {
  }

  /**
   * `updatedList`: when editing, every entry whose id equals the edited
   * entry's id is replaced by the new one; when adding, it is appended.
   */
  function UpdatedList(current: seq<EducationData>, editing: Option<EducationData>, entry: EducationData): (r: seq<EducationData>)
    ensures editing.None? ==> r == current + [entry]
    ensures editing.Some? ==> |r| == |current| && forall i :: 0 <= i < |current| ==>
      r[i] == if current[i].id == editing.value.id then entry else current[i]
  {
    if editing.Some? then
      seq(|current|, i requires 0 <= i < |current| => if current[i].id == editing.value.id then entry else current[i])
    else current + [entry]
  }

  /** Editing an entry that is in the list puts the new entry in its place, and only there. */
  lemma EditReplacesInPlace(current: seq<EducationData>, k: int, entry: EducationData)
    requires 0 <= k < |current|
    requires forall j :: 0 <= j < |current| && j != k ==> current[j].id != current[k].id
    ensures var r := UpdatedList(current, Some(current[k]), entry);
      r[k] == entry && r[..k] == current[..k] && r[k + 1..] == current[k + 1..]
  {
    var r := UpdatedList(current, Some(current[k]), entry);
    assert forall j :: 0 <= j < |current| && j != k ==> r[j] == current[j];
  }

  /** An edit whose entry matches nothing in the list leaves the list as it was. */
  lemma EditOfMissingEntry(current: seq<EducationData>, editing: EducationData, entry: EducationData)
    requires forall j :: 0 <= j < |current| ==> current[j].id != editing.id
    ensures UpdatedList(current, Some(editing), entry) == current
  {
  }

  /** The failure message: the server's message, or a fixed one when it gives none. */
  function SaveFailureMessage(serverMessage: string): (m: string)
    ensures m != ""
    ensures serverMessage != "" ==> m == serverMessage
    ensures serverMessage == "" ==> m == "Failed to save education"
  {
    if serverMessage != "" then serverMessage else "Failed to save education"
  }

  /** The dialog's state. */
  class EditEducationModal {
    var degree: string
    var specialization: string
    var institution: string
    var country: string
    var startYear: YearField
    var endYear: Option<int>
    var loading: bool
    var error: Option<string>

    constructor(currentYear: int)
      ensures degree == "" && specialization == "" && institution == "" && country == ""
      ensures startYear == Some(currentYear) && endYear == None && !loading && error == None
    {
      degree, specialization, institution, country := "", "", "", "";
      startYear, endYear := Some(currentYear), None;
      loading, error := false, None;
    }

    /** The opening effect: the edited entry's fields, or an empty form for the current year. */
    method Open(editing: Option<EducationData>, currentYear: int)
      modifies this
      ensures error == None && loading == old(loading)
      ensures editing.Some? ==>
        degree == editing.value.degree && specialization == editing.value.specialization
        && institution == editing.value.institution && country == editing.value.country
        && startYear == editing.value.startYear
        && endYear == (if Truthy(editing.value.endYear) then editing.value.endYear else None)
      ensures editing.None? ==>
        degree == "" && specialization == "" && institution == "" && country == ""
        && startYear == Some(currentYear) && endYear == None
    {
      if editing.Some? {
        var e := editing.value;
        degree, specialization, institution, country := e.degree, e.specialization, e.institution, e.country;
        startYear := e.startYear;
        endYear := if Truthy(e.endYear) then e.endYear else None;
      } else {
        degree, specialization, institution, country := "", "", "", "";
        startYear, endYear := Some(currentYear), None;
      }
      error := None;
    }

    /** The start-year input's `onChange`: `parseInt` of the text, `None` for NaN. */
    method SetStartYear(parsed: YearField)
      modifies this
      ensures startYear == parsed && endYear == old(endYear)
      ensures degree == old(degree) && specialization == old(specialization)
      ensures institution == old(institution) && country == old(country)
      ensures loading == old(loading) && error == old(error)
    {
      startYear := parsed;
    }

    /** The end-year input's `onChange`: an empty input (or NaN) clears the end year. */
    method SetEndYear(parsed: Option<int>)
      modifies this
      ensures endYear == parsed && startYear == old(startYear)
      ensures degree == old(degree) && specialization == old(specialization)
      ensures institution == old(institution) && country == old(country)
      ensures loading == old(loading) && error == old(error)
    {
      endYear := parsed;
    }

    /**
     * `handleSave`: a failed check sets its message and sends nothing;
     * otherwise the updated list is sent, and `failure` (None on success, the
     * server's message otherwise) decides whether the dialog closes.
     */
    method Save(user: Option<string>, editing: Option<EducationData>, current: Option<seq<EducationData>>,
                stamp: string, failure: Option<string>)
      returns (sent: Option<seq<EducationData>>, closed: bool)
      modifies this
      ensures var v := Validate(user.Some?, old(degree), old(institution), old(country), old(startYear), old(endYear));
        (v.Some? ==> sent == None && !closed && error == Some(Message(v.value)) && loading == old(loading))
        && (v.None? ==>
          sent == Some(UpdatedList(if current.Some? then current.value else [], editing,
            NewEntry(editing, stamp, old(degree), old(specialization), old(institution), old(country), old(startYear), old(endYear))))
          && closed == failure.None?
          && error == (if failure.None? then None else Some(SaveFailureMessage(failure.value)))
          && !loading)
      ensures degree == old(degree) && institution == old(institution) && country == old(country)
      ensures startYear == old(startYear) && endYear == old(endYear) && specialization == old(specialization)
    {
      var v := Validate(user.Some?, degree, institution, country, startYear, endYear);
      if v.Some? {
        error := Some(Message(v.value));
        return None, false;
      }
      loading := true;
      error := None;
      var entry := NewEntry(editing, stamp, degree, specialization, institution, country, startYear, endYear);
      var list := UpdatedList(if current.Some? then current.value else [], editing, entry);
      sent := Some(list);
      if failure.None? {
        closed := true;
      } else {
        closed := false;
        error := Some(SaveFailureMessage(failure.value));
      }
      loading := false;
    }
  }
}
