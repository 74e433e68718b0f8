/**
 * The five-step onboarding wizard: the step counter, the edits of the
 * profile form, and the payload `PUT /doctors/profile` receives at the end.
 */
module Onboarding {
  import opened Wrappers
  import opened Profile

  const Steps: seq<string> :=
    ["Getting Started", "Location", "Personal Details", "Professional Details", "Calendar"]

  /** The backend's snake_case records: `{ start_time, end_time }` and `{ day_of_week, is_available, time_slots }`. */
  datatype SlotPayload = SlotPayload(startTime: string, endTime: string)

  datatype DayPayload = DayPayload(dayOfWeek: int, isAvailable: bool, timeSlots: seq<SlotPayload>)

  datatype Payload = Payload(
    preferredName: string, pronouns: string, dateOfBirth: string, gender: string,
    about: string, workBestWith: string, address: Address,
    serviceLocations: seq<string>, servicesProvidedTo: seq<string>, treatmentPlatforms: seq<string>,
    experienceYears: int, availability: seq<DayPayload>, onboardingCompleted: bool)

  function SlotToPayload(s: Slot): SlotPayload {
    SlotPayload(s.startTime, s.endTime)
  }

  function DayToPayload(d: DayAvailability): (p: DayPayload)
    ensures p.dayOfWeek == d.dayOfWeek && p.isAvailable == d.isAvailable
    ensures |p.timeSlots| == |d.timeSlots|
    ensures forall k :: 0 <= k < |d.timeSlots| ==> p.timeSlots[k] == SlotToPayload(d.timeSlots[k])
  {
    DayPayload(d.dayOfWeek, d.isAvailable,
      seq(|d.timeSlots|, k requires 0 <= k < |d.timeSlots| => SlotToPayload(d.timeSlots[k])))
  }

  /**
   * `backendPayload`: every field renamed, each day and each slot mapped one
   * to one in order, and `onboarding_completed` set. The specialisations are
   * not sent.
   */
  function ToPayload(f: ProfileForm): (p: Payload)
    ensures p.onboardingCompleted
    ensures |p.availability| == |f.availability|
    ensures forall i :: 0 <= i < |f.availability| ==> p.availability[i] == DayToPayload(f.availability[i])
  {
    Payload(f.preferredName, f.pronouns, f.dateOfBirth, f.gender, f.about, f.workBestWith, f.address,
      f.serviceLocations, f.servicesProvidedTo, f.treatmentPlatforms, f.totalExperienceYears,
      seq(|f.availability|, i requires 0 <= i < |f.availability| => DayToPayload(f.availability[i])),
      true)
  }

  function DayFromPayload(p: DayPayload): DayAvailability {
    DayAvailability(p.dayOfWeek, p.isAvailable,
      seq(|p.timeSlots|, k requires 0 <= k < |p.timeSlots| => Slot(p.timeSlots[k].startTime, p.timeSlots[k].endTime)))
  }

  /** Reads a payload back into a form; the specialisations must be supplied, the payload lacks them. */
  function FromPayload(p: Payload, specializations: seq<string>): ProfileForm {
    ProfileForm(p.preferredName, p.pronouns, p.dateOfBirth, p.gender, p.about, p.workBestWith, p.address,
      p.serviceLocations, p.servicesProvidedTo, p.treatmentPlatforms, specializations, p.experienceYears,
      seq(|p.availability|, i requires 0 <= i < |p.availability| => DayFromPayload(p.availability[i])))
  }

  /** Nothing but the specialisations is lost in the payload: reading it back gives the form again. */
  lemma PayloadRoundTrip(f: ProfileForm)
    ensures FromPayload(ToPayload(f), f.specializations) == f
  {
    var p := ToPayload(f);
    forall i | 0 <= i < |f.availability|
      ensures DayFromPayload(p.availability[i]) == f.availability[i]
    {
      var d := f.availability[i];
      var back := DayFromPayload(p.availability[i]);
      assert back.timeSlots == d.timeSlots;
    }
    assert FromPayload(p, f.specializations).availability == f.availability;
  }

  /** The specialisations never reach the backend: forms differing only there send the same payload. */
  lemma PayloadIgnoresSpecializations(f: ProfileForm, s: seq<string>)
    ensures ToPayload(f.(specializations := s)) == ToPayload(f)
  {
  }

  /** The message shown when saving fails: the server's message, or a fixed one when it gives none. */
  function SaveErrorMessage(serverMessage: string): (m: string)
    ensures m != ""
    ensures serverMessage != "" ==> m == serverMessage
    ensures serverMessage == "" ==> m == "Failed to save profile. Please try again."
  {
    if serverMessage != "" then serverMessage else "Failed to save profile. Please try again."
  }

  /** The wizard's state. */
  class OnboardingPage {
    var currentStep: int
    var loading: bool
    var error: string
    var form: ProfileForm

    /** The step stays within the five steps and every day keeps a first slot. */
    predicate Valid()
      reads this
    {
      0 <= currentStep < |Steps| && WellFormedWeek(form.availability)
    }

    constructor()
      ensures Valid() && currentStep == 0 && !loading && error == "" && form == EmptyForm()
    {
      currentStep := 0;
      loading := false;
      error := "";
      form := EmptyForm();
    }

    /**
     * `handleNext`: clears the error, then advances below the last step; on
     * the last step it sends the payload instead. `failure` is None when the
     * request succeeds (and `onComplete` runs), otherwise the server message.
     */
    method Next(failure: Option<string>) returns (sent: Option<Payload>, completed: bool)
      requires Valid()
      modifies this
      ensures Valid() && form == old(form)
      ensures old(currentStep) < |Steps| - 1 ==>
        currentStep == old(currentStep) + 1 && sent == None && !completed && error == ""
        && loading == old(loading)
      ensures old(currentStep) == |Steps| - 1 ==>
        currentStep == old(currentStep) && sent == Some(ToPayload(old(form))) && !loading
        && completed == failure.None?
        && error == (if failure.None? then "" else SaveErrorMessage(failure.value))
    {
      error := "";
      if currentStep < |Steps| - 1 {
        currentStep := currentStep + 1;
        sent, completed := None, false;
      } else {
        loading := true;
        sent := Some(ToPayload(form));
        if failure.None? {
          completed := true;
        } else {
          completed := false;
          error := SaveErrorMessage(failure.value);
        }
        loading := false;
      }
    }

    /** `handleBack`: one step back, never below the first step. */
    method Back()
      requires Valid()
      modifies this
      ensures Valid() && form == old(form) && error == old(error)
      ensures currentStep == if old(currentStep) > 0 then old(currentStep) - 1 else 0
    {
      if currentStep > 0 {
        currentStep := currentStep - 1;
      }
    }

    /** A chip of the professional step: `toggleArrayValue` on one of the three lists. */
    method Toggle(field: ListField, v: string)
      requires Valid()
      modifies this
      ensures Valid() && currentStep == old(currentStep)
      ensures form == ToggleIn(old(form), field, v)
    {
      form := ToggleIn(form, field, v);
    }

    method SetDayAvailable(i: int, checked: bool)
      requires Valid() && 0 <= i < 7
      modifies this
      ensures Valid() && currentStep == old(currentStep)
      ensures form == old(form).(availability := SetAvailable(old(form).availability, i, checked))
    {
      form := form.(availability := SetAvailable(form.availability, i, checked));
    }

    method SetStartTime(i: int, time: string)
      requires Valid() && 0 <= i < 7
      modifies this
      ensures Valid() && currentStep == old(currentStep)
      ensures form == old(form).(availability := SetSlotStart(old(form).availability, i, time))
    {
      form := form.(availability := SetSlotStart(form.availability, i, time));
    }

    method SetEndTime(i: int, time: string)
      requires Valid() && 0 <= i < 7
      modifies this
      ensures Valid() && currentStep == old(currentStep)
      ensures form == old(form).(availability := SetSlotEnd(old(form).availability, i, time))
    {
      form := form.(availability := SetSlotEnd(form.availability, i, time));
    }
  }
}
