/** The counselor application wizard
    (components/counselor-application/counselor-application-form.tsx): four
    steps, the field group each of the first three validates, and the
    Back / Next / Submit navigation over `currentStep`. */
module ApplicationForm {
  import opened Wrappers
  import opened Collections

  /** `steps.length`. */
  const StepCount := 4

  /** The form's values. A document is present when the field holds a
      `File`; `dateOfBirth` is absent until picked. */
  datatype FormValues = FormValues(
    firstName: string,
    lastName: string,
    email: string,
    phone: string,
    dateOfBirth: Option<string>,
    address: string,
    specialization: string,
    experience: string,
    licenseNumber: string,
    languages: seq<string>,
    hourlyRate: string,
    bio: string,
    professionalLicense: bool,
    educationalCredentials: bool,
    identificationDocument: bool,
    photograph: bool,
    workExperience: bool,
    cv: bool)

  /** `z.string().min(50).max(500)`. */
  predicate BioValid(bio: string) {
    50 <= |bio| <= 500
  }

  /** `z.string().min(0)`: no string is shorter than 0. */
  predicate HourlyRateValid(rate: string) {
    |rate| >= 0
  }

  /** Step 1: first and last name of two characters or more, an address
      the email check accepts (`isEmail` stands for zod's pattern), a
      phone of ten or more, a date of birth and an address. */
  predicate PersonalValid(v: FormValues, isEmail: string -> bool) {
    |v.firstName| >= 2 && |v.lastName| >= 2 && isEmail(v.email) && |v.phone| >= 10
    && v.dateOfBirth.Some? && |v.address| >= 1
  }

  /** Step 2. */
  predicate ProfessionalValid(v: FormValues) {
    |v.specialization| >= 1 && |v.experience| >= 1 && |v.licenseNumber| >= 1
    && |v.languages| >= 1 && HourlyRateValid(v.hourlyRate) && BioValid(v.bio)
  }

  /** Step 3: every document is a file. */
  predicate DocumentsValid(v: FormValues) {
    v.professionalLicense && v.educationalCredentials && v.identificationDocument
    && v.photograph && v.workExperience && v.cv
  }

  /** `currentStepValid`: the current step's group, and nothing to check
      on any other step. */
  predicate StepValid(step: int, v: FormValues, isEmail: string -> bool) {
    if step == 1 then PersonalValid(v, isEmail)
    else if step == 2 then ProfessionalValid(v)
    else if step == 3 then DocumentsValid(v)
    else true
  }

  /** A navigation event: Next with the outcome of the step's validation,
      or Back. */
  datatype Action = Next(valid: bool) | Back

  /** One transition of `currentStep`. */
  function Advance(step: int, a: Action): (r: int)
    ensures a.Next? && a.valid && step < StepCount ==> r == step + 1
    ensures a.Next? && !(a.valid && step < StepCount) ==> r == step
    ensures a.Back? ==> r == if step > 1 then step - 1 else step
    ensures 1 <= step <= StepCount ==> 1 <= r <= StepCount
  {
    match a
    case Next(valid) => if valid && step < StepCount then step + 1 else step
    case Back => if step > 1 then step - 1 else step
  }

  function Run(step: int, actions: seq<Action>): int
    decreases |actions|
  {
    if actions == [] then step else Run(Advance(step, actions[0]), actions[1..])
  }

  /** From any step in range, every run of events stays in [1, 4]. */
  lemma {:induction false} RunInRange(step: int, actions: seq<Action>)
    requires 1 <= step <= StepCount
    ensures 1 <= Run(step, actions) <= StepCount
    decreases |actions|
  {
    if actions != [] {
      RunInRange(Advance(step, actions[0]), actions[1..]);
    }
  }

  /** The step climbs only through validated Next events: reaching the
      review step from step 1 takes at least three of them. */
  lemma {:induction false} ClimbNeedsValidNext(step: int, actions: seq<Action>)
    ensures Run(step, actions) - step <= Count(actions, a => a == Next(true))
    decreases |actions|
  {
    if actions != [] {
      ClimbNeedsValidNext(Advance(step, actions[0]), actions[1..]);
    }
  }

  /** The review step checks nothing, and no hourly rate is refused. */
  lemma ReviewAndRateAlwaysValid(v: FormValues, isEmail: string -> bool)
    ensures StepValid(StepCount, v, isEmail)
    ensures HourlyRateValid(v.hourlyRate)
  {
  }

  /** With the other step-2 fields filled, the group passes exactly when the
      bio has 50 to 500 characters. */
  lemma BioBoundary(v: FormValues)
    requires |v.specialization| >= 1 && |v.experience| >= 1 && |v.licenseNumber| >= 1 && |v.languages| >= 1
    ensures ProfessionalValid(v) <==> 50 <= |v.bio| <= 500
  {
  }

  /** The wizard's state. */
  class Wizard {
    var currentStep: int

    ghost predicate Valid()
      reads this
    {
      1 <= currentStep <= StepCount
    }

    constructor ()
      ensures Valid() && currentStep == 1
    {
      currentStep := 1;
    }

    /** `nextStep`: validate the current group, then move on when it
        passes and this is not the last step. */
    method NextStep(v: FormValues, isEmail: string -> bool)
      requires Valid()
      modifies this
      ensures Valid()
      ensures currentStep == Advance(old(currentStep), Next(StepValid(old(currentStep), v, isEmail)))
    {
      var isValid := StepValid(currentStep, v, isEmail);
      if isValid && currentStep < StepCount {
        currentStep := currentStep + 1;
      }
    }

    /** `prevStep`. */
    method PrevStep()
      requires Valid()
      modifies this
      ensures Valid()
      ensures currentStep == Advance(old(currentStep), Back)
    {
      if currentStep > 1 {
        currentStep := currentStep - 1;
      }
    }

    /** `currentStep === steps.length ? Submit : Next`. */
    function ShowsSubmit(): (r: bool)
      reads this
      ensures r <==> currentStep == StepCount
    {
      currentStep == StepCount
    }

    /** Back is disabled on the first step. */
    function BackEnabled(isSubmitting: bool): (r: bool)
      requires Valid()
      reads this
      ensures r <==> currentStep > 1 && !isSubmitting
    {
      currentStep != 1 && !isSubmitting
    }
  }
}
