/**
 * The profile form both onboarding wizards fill in: the weekly availability
 * (one entry per weekday, each with a first time slot the time inputs edit),
 * the multi-select lists and the text fields.
 */
module Profile {
  import opened Seqs
  import Constants

  datatype Slot = Slot(startTime: string, endTime: string)

  datatype DayAvailability = DayAvailability(dayOfWeek: int, isAvailable: bool, timeSlots: seq<Slot>)

  const DefaultSlot := Slot("09:00", "17:00")

  /** `DAYS_OF_WEEK.map((day, index) => ...)`: every weekday unavailable, with one 09:00-17:00 slot. */
  function InitialAvailability(): (r: seq<DayAvailability>)
    ensures |r| == |Constants.DaysOfWeek| == 7
    ensures forall i :: 0 <= i < |r| ==>
      r[i].dayOfWeek == i && !r[i].isAvailable && r[i].timeSlots == [DefaultSlot]
  {
    seq(|Constants.DaysOfWeek|, i requires 0 <= i < |Constants.DaysOfWeek| =>
      DayAvailability(i, false, [DefaultSlot]))
  }

  /** A week as the form keeps it: seven entries, each with a first slot. */
  predicate WellFormedWeek(days: seq<DayAvailability>) {
    |days| == 7 && forall i :: 0 <= i < |days| ==> |days[i].timeSlots| > 0
  }

  lemma InitialWellFormed()
    ensures WellFormedWeek(InitialAvailability())
  {
  }

  /** The checkbox of day i: only entry i's availability flag changes. */
  function SetAvailable(days: seq<DayAvailability>, i: int, checked: bool): (r: seq<DayAvailability>)
    requires 0 <= i < |days|
    ensures |r| == |days| && r[i].isAvailable == checked
    ensures r[i].dayOfWeek == days[i].dayOfWeek && r[i].timeSlots == days[i].timeSlots
    ensures forall j :: 0 <= j < |days| && j != i ==> r[j] == days[j]
  {
    days[i := days[i].(isAvailable := checked)]
  }

  /** The start-time input of day i: only the first slot of entry i changes. */
  function SetSlotStart(days: seq<DayAvailability>, i: int, time: string): (r: seq<DayAvailability>)
    requires 0 <= i < |days| && |days[i].timeSlots| > 0
    ensures |r| == |days| && |r[i].timeSlots| == |days[i].timeSlots|
    ensures r[i].timeSlots[0] == Slot(time, days[i].timeSlots[0].endTime)
    ensures r[i].timeSlots[1..] == days[i].timeSlots[1..]
    ensures r[i].dayOfWeek == days[i].dayOfWeek && r[i].isAvailable == days[i].isAvailable
    ensures forall j :: 0 <= j < |days| && j != i ==> r[j] == days[j]
  {
    var d := days[i];
    days[i := d.(timeSlots := d.timeSlots[0 := d.timeSlots[0].(startTime := time)])]
  }

  /** The end-time input of day i: only the first slot of entry i changes. */
  function SetSlotEnd(days: seq<DayAvailability>, i: int, time: string): (r: seq<DayAvailability>)
    requires 0 <= i < |days| && |days[i].timeSlots| > 0
    ensures |r| == |days| && |r[i].timeSlots| == |days[i].timeSlots|
    ensures r[i].timeSlots[0] == Slot(days[i].timeSlots[0].startTime, time)
    ensures r[i].timeSlots[1..] == days[i].timeSlots[1..]
    ensures r[i].dayOfWeek == days[i].dayOfWeek && r[i].isAvailable == days[i].isAvailable
    ensures forall j :: 0 <= j < |days| && j != i ==> r[j] == days[j]
  {
    var d := days[i];
    days[i := d.(timeSlots := d.timeSlots[0 := d.timeSlots[0].(endTime := time)])]
  }

  /** None of the three edits can take a day's first slot away. */
  lemma EditsKeepWeekWellFormed(days: seq<DayAvailability>, i: int, checked: bool, time: string)
    requires WellFormedWeek(days) && 0 <= i < 7
    ensures WellFormedWeek(SetAvailable(days, i, checked))
    ensures WellFormedWeek(SetSlotStart(days, i, time))
    ensures WellFormedWeek(SetSlotEnd(days, i, time))
  {
  }

  datatype Address = Address(line1: string, line2: string, city: string, state: string, country: string, postalCode: string)

  datatype ProfileForm = ProfileForm(
    preferredName: string, pronouns: string, dateOfBirth: string, gender: string,
    about: string, workBestWith: string, address: Address,
    serviceLocations: seq<string>, servicesProvidedTo: seq<string>,
    treatmentPlatforms: seq<string>, specializations: seq<string>,
    totalExperienceYears: int, availability: seq<DayAvailability>)

  /** The form as a wizard opens it. */
  function EmptyForm(): (f: ProfileForm)
    ensures WellFormedWeek(f.availability)
    ensures f.serviceLocations == f.servicesProvidedTo == f.treatmentPlatforms == f.specializations == []
  {
    ProfileForm("", "", "", "", "", "", Address("", "", "", "", "", ""), [], [], [], [], 0, InitialAvailability())
  }

  /** The three multi-select lists the professional step toggles values in. */
  datatype ListField = ServiceLocations | ServicesProvidedTo | TreatmentPlatforms

  /** `setFormData({ ...formData, field: toggleArrayValue(formData.field, value) })`. */
  function ToggleIn(f: ProfileForm, field: ListField, v: string): ProfileForm {
    match field
    case ServiceLocations => f.(serviceLocations := Toggle(f.serviceLocations, v))
    case ServicesProvidedTo => f.(servicesProvidedTo := Toggle(f.servicesProvidedTo, v))
    case TreatmentPlatforms => f.(treatmentPlatforms := Toggle(f.treatmentPlatforms, v))
  }
}
