/**
 * The white-collar profile wizard: five steps (personal info, work
 * experience, education, skills, upload) over one shared `formData`, moved
 * through by `nextStep` and `prevStep`.
 */
module WhiteCollarProfile {
  import opened Forms

  /** The personal-info fields the first step asks for. */
  const PersonalInfoFields: seq<string> := ["fullName", "email", "phone", "location"]

  /** The step components, with the `fields` the first one is given. */
  datatype StepView =
    | PersonalInfoStep(fields: seq<string>)
    | WorkExperienceStep
    | EducationStep
    | SkillsStep
    | UploadResumeStep

  /** The initial `formData`. */
  function InitialFormData(): (fd: FormData)
    ensures fd.Keys == {"fullName", "email", "phone", "location", "experience", "education",
                        "skills", "otherSkill", "uploadedResume"}
    ensures forall k :: k in PersonalInfoFields ==> fd[k] == Str("")
    ensures fd["experience"] == Experiences([BlankExperience])
    ensures fd["education"] == Educations([BlankEducation])
    ensures fd["skills"] == Strs([]) && fd["otherSkill"] == Str("")
    ensures fd["uploadedResume"] == Null
  {
    map[
      "fullName" := Str(""), "email" := Str(""), "phone" := Str(""), "location" := Str(""),
      "experience" := Experiences([BlankExperience]),
      "education" := Educations([BlankEducation]),
      "skills" := Strs([]), "otherSkill" := Str(""), "uploadedResume" := Null]
  }

  /** `{step === k && <Component/>}` for k = 1..5: the components that render at `step`. */
  function RenderedSteps(step: int): (r: seq<StepView>)
    ensures step == 1 ==> r == [PersonalInfoStep(PersonalInfoFields)]
    ensures step == 2 ==> r == [WorkExperienceStep]
    ensures step == 3 ==> r == [EducationStep]
    ensures step == 4 ==> r == [SkillsStep]
    ensures step == 5 ==> r == [UploadResumeStep]
    ensures !(1 <= step <= 5) ==> r == []
  {
    (if step == 1 then [PersonalInfoStep(PersonalInfoFields)] else [])
    + (if step == 2 then [WorkExperienceStep] else [])
    + (if step == 3 then [EducationStep] else [])
    + (if step == 4 then [SkillsStep] else [])
    + (if step == 5 then [UploadResumeStep] else [])
  }

  /** Different steps render different components. */
  lemma RenderedStepsDistinct(s1: int, s2: int)
    requires 1 <= s1 <= 5 && 1 <= s2 <= 5 && s1 != s2
    ensures RenderedSteps(s1)[0] != RenderedSteps(s2)[0]
  {
  }

  /** Step 1 offers no back button; steps 2..5 do. */
  predicate BackOffered(step: int) {
    2 <= step <= 5
  }

  class WhiteCollarProfile {
    var step: int
    var formData: FormData

    constructor()
      ensures step == 1 && formData == InitialFormData()
      ensures Valid()
    {
      step := 1;
      formData := InitialFormData();
    }

    /** Every reachable step renders exactly one component. */
    predicate Valid()
      reads this
    {
      1 <= step <= 5
    }

    /** `nextStep`: one step on, `formData` untouched. */
    method NextStep()
      modifies this
      ensures step == old(step) + 1 && formData == old(formData)
    {
      step := step + 1;
    }

    /** `prevStep`: one step back, `formData` untouched. */
    method PrevStep()
      modifies this
      ensures step == old(step) - 1 && formData == old(formData)
    {
      step := step - 1;
    }

    /** The `setFormData` the step components are given. */
    method SetFormData(fd: FormData)
      modifies this
      ensures formData == fd && step == old(step)
    {
      formData := fd;
    }

    /**
     * The rendered component's next action: steps 1..4 call `nextStep`
     * with no validation (the experience form ignores its `required` prop);
     * step 5's next only alerts.
     */
    method ClickNext() returns (alerted: bool)
      requires Valid()
      modifies this
      ensures Valid()
      ensures alerted <==> old(step) == 5
      ensures step == if old(step) == 5 then 5 else old(step) + 1
      ensures formData == old(formData)
    {
      if step == 5 {
        alerted := true;
      } else {
        alerted := false;
        NextStep();
      }
    }

    /** The rendered component's back action, offered from step 2 on. */
    method ClickBack()
      requires Valid() && BackOffered(step)
      modifies this
      ensures Valid()
      ensures step == old(step) - 1 && formData == old(formData)
    {
      PrevStep();
    }
  }

  /** Going back and then forward returns to the same step with the same data. */
  method BackThenNext(w: WhiteCollarProfile)
    requires w.Valid() && BackOffered(w.step)
    modifies w
    ensures w.step == old(w.step) && w.formData == old(w.formData)
  {
    w.ClickBack();
    var alerted := w.ClickNext();
  }
}
