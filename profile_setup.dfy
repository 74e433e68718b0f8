/**
 * The seven-step profile set-up wizard shown after sign-in: the step counter,
 * the form edits, and the guarded completion.
 */
module ProfileSetup {
  import opened Wrappers
  import opened Profile

  const Steps: seq<string> :=
    ["Getting Started", "Location", "Personal Details", "Professional Details", "Calendar", "Education", "Media"]

  class ProfileSetupWizard {
    var currentStep: int
    var form: ProfileForm

    /** The step stays within the seven steps and every day keeps a first slot. */
    predicate Valid()
      reads this
    {
      0 <= currentStep < |Steps| && WellFormedWeek(form.availability)
    }

    constructor()
      ensures Valid() && currentStep == 0 && form == EmptyForm()
    {
      currentStep := 0;
      form := EmptyForm();
    }

    /**
     * `handleNext`: advances below the last step; on the last step
     * `saveProfile` completes the wizard, but only for a signed-in user.
     */
    method Next(user: Option<string>) returns (completed: bool)
      requires Valid()
      modifies this
      ensures Valid() && form == old(form)
      ensures old(currentStep) < |Steps| - 1 ==> currentStep == old(currentStep) + 1 && !completed
      ensures old(currentStep) == |Steps| - 1 ==> currentStep == old(currentStep) && completed == user.Some?
    {
      if currentStep < |Steps| - 1 {
        currentStep := currentStep + 1;
        completed := false;
      } else {
        completed := user.Some?;
      }
    }

    /** `handleBack`: one step back, never below the first step. */
    method Back()
      requires Valid()
      modifies this
      ensures Valid() && form == old(form)
      ensures currentStep == if old(currentStep) > 0 then old(currentStep) - 1 else 0
    {
      if currentStep > 0 {
        currentStep := currentStep - 1;
      }
    }

    method Toggle(field: ListField, v: string)
      requires Valid()
      modifies this
      ensures Valid() && currentStep == old(currentStep)
      ensures form == ToggleIn(old(form), field, v)
    {
      form := ToggleIn(form, field, v);
    }

    method SetDayAvailable(i: int, checked: bool)
      requires Valid() && 0 <= i < 7
      modifies this
      ensures Valid() && currentStep == old(currentStep)
      ensures form == old(form).(availability := SetAvailable(old(form).availability, i, checked))
    {
      form := form.(availability := SetAvailable(form.availability, i, checked));
    }

    method SetStartTime(i: int, time: string)
      requires Valid() && 0 <= i < 7
      modifies this
      ensures Valid() && currentStep == old(currentStep)
      ensures form == old(form).(availability := SetSlotStart(old(form).availability, i, time))
    {
      form := form.(availability := SetSlotStart(form.availability, i, time));
    }

    method SetEndTime(i: int, time: string)
      requires Valid() && 0 <= i < 7
      modifies this
      ensures Valid() && currentStep == old(currentStep)
      ensures form == old(form).(availability := SetSlotEnd(old(form).availability, i, time))
    {
      form := form.(availability := SetSlotEnd(form.availability, i, time));
    }
  }
}
