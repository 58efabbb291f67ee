/**
 * The resume builder: the user first chooses to build a resume or upload
 * one; building walks through personal info and work experience, uploading
 * shows the upload step, whose back button resets the whole builder.
 */
module ResumeBuilder {
  import opened Forms
  import ResumeUploadResumeStep

  /** The two ways to start, as the start-choice buttons pass them to `setMode`. */
  datatype Mode = Build | Upload

  /** The initial `formData` of the builder, restored by `reset`. */
  function InitialFormData(): (fd: FormData)
    ensures fd.Keys == {"fullName", "email", "phone", "location", "experience", "uploadedResume"}
    ensures fd["fullName"] == fd["email"] == fd["phone"] == fd["location"] == Str("")
    ensures fd["experience"] == Experiences([BlankExperience])
    ensures fd["uploadedResume"] == Null
  {
    map[
      "fullName" := Str(""), "email" := Str(""), "phone" := Str(""), "location" := Str(""),
      "experience" := Experiences([BlankExperience]),
      "uploadedResume" := Null]
  }

  /** The step components the builder can show. */
  datatype StepView = PersonalInfoForm | WorkExperienceForm | UploadResumeStep

  /** The start choice, or the builder's heading with the step components that render under it. */
  datatype Screen = StartChoice | Steps(shown: seq<StepView>)

  /** What the builder renders for a mode and a step. */
  function ScreenOf(mode: Option<Mode>, step: int): (s: Screen)
    ensures s == StartChoice <==> mode.None?
    ensures s == Steps([PersonalInfoForm]) <==> mode == Some(Build) && step == 1
    ensures s == Steps([WorkExperienceForm]) <==> mode == Some(Build) && step == 2
    ensures s == Steps([UploadResumeStep]) <==> mode == Some(Upload) && step == 1
    ensures s == Steps([]) <==> mode.Some? && !(step == 1 || (mode == Some(Build) && step == 2))
  {
    match mode
    case None => StartChoice
    case Some(Build) =>
      if step == 1 then Steps([PersonalInfoForm])
      else if step == 2 then Steps([WorkExperienceForm])
      else Steps([])
    case Some(Upload) =>
      if step == 1 then Steps([UploadResumeStep]) else Steps([])
  }

  /** The states the builder can reach: building is at steps 1..3, otherwise the step is 1. */
  predicate Reachable(mode: Option<Mode>, step: int) {
    if mode == Some(Build) then 1 <= step <= 3 else step == 1
  }

  /**
   * In every reachable state the builder shows the start choice or exactly
   * one step, except after the work-experience step, where building shows
   * no step and no button.
   */
  lemma ReachableScreens(mode: Option<Mode>, step: int)
    requires Reachable(mode, step)
    ensures ScreenOf(mode, step).Steps? ==> |ScreenOf(mode, step).shown| == if mode == Some(Build) && step == 3 then 0 else 1
  {
    if mode == Some(Build) {
      if step == 1 {
        assert ScreenOf(mode, step) == Steps([PersonalInfoForm]);
      } else if step == 2 {
        assert ScreenOf(mode, step) == Steps([WorkExperienceForm]);
      }
    } else if mode == Some(Upload) {
      assert ScreenOf(mode, step) == Steps([UploadResumeStep]);
    }
  }

  class ResumeBuilder {
    var mode: Option<Mode>
    var step: int
    var formData: FormData

    constructor()
      ensures mode.None? && step == 1 && formData == InitialFormData()
      ensures Valid()
    {
      mode := None;
      step := 1;
      formData := InitialFormData();
    }

    predicate Valid()
      reads this
    {
      Reachable(mode, step)
    }

    function Screen(): Screen
      reads this
    {
      ScreenOf(mode, step)
    }

    /** The start choice's `onSelect`. */
    method SelectMode(m: Mode)
      requires Valid() && Screen() == StartChoice
      modifies this
      ensures mode == Some(m) && step == old(step) && formData == old(formData)
      ensures Valid()
    {
      mode := Some(m);
    }

    /** `nextStep` */
    method NextStep()
      modifies this
      ensures step == old(step) + 1 && mode == old(mode) && formData == old(formData)
    {
      step := step + 1;
    }

    /** `prevStep` */
    method PrevStep()
      modifies this
      ensures step == old(step) - 1 && mode == old(mode) && formData == old(formData)
    {
      step := step - 1;
    }

    /** `reset`: back to the start choice with the initial data. */
    method Reset()
      modifies this
      ensures mode.None? && step == 1 && formData == InitialFormData()
      ensures Valid()
    {
      mode := None;
      step := 1;
      formData := InitialFormData();
    }

    /** The `setFormData` the step components are given. */
    method SetFormData(fd: FormData)
      modifies this
      ensures formData == fd && mode == old(mode) && step == old(step)
    {
      formData := fd;
    }

    /**
     * The shown step's next button: building moves one step on (there is no
     * validation); the upload step only thanks the user, and its button can
     * be pressed only once a file is stored.
     */
    method ClickNext() returns (alerted: bool)
      requires Valid() && Screen().Steps? && Screen().shown != []
      requires mode == Some(Upload) ==> !ResumeUploadResumeStep.NextDisabled(formData)
      modifies this
      ensures Valid()
      ensures alerted <==> old(mode) == Some(Upload)
      ensures mode == old(mode) && formData == old(formData)
      ensures step == if alerted then old(step) else old(step) + 1
    {
      ReachableScreens(mode, step);
      alerted := mode == Some(Upload);
      if !alerted {
        NextStep();
      }
    }

    /** The shown step's back button: the work-experience step goes back one step, the upload step resets. */
    method ClickBack()
      requires Valid() && (Screen() == Steps([WorkExperienceForm]) || Screen() == Steps([UploadResumeStep]))
      modifies this
      ensures Valid()
      ensures old(mode) == Some(Build) ==> mode == old(mode) && step == 1 && formData == old(formData)
      ensures old(mode) == Some(Upload) ==> mode.None? && step == 1 && formData == InitialFormData()
    {
      if mode == Some(Build) {
        PrevStep();
      } else {
        Reset();
      }
    }
  }

  /** On a fresh upload screen no file is stored yet, so its next button is disabled. */
  lemma UploadStartsWithNextDisabled()
    ensures ResumeUploadResumeStep.NextDisabled(InitialFormData())
  {
  }

  /** A reset builder is indistinguishable from a new one. */
  method ResetIsFresh(b: ResumeBuilder) returns (newBuilder: ResumeBuilder)
    modifies b
    ensures b.mode == newBuilder.mode && b.step == newBuilder.step && b.formData == newBuilder.formData
    ensures b.Screen() == StartChoice
  {
    b.Reset();
    newBuilder := new ResumeBuilder();
  }

  /** Choosing to build and pressing next twice leaves the builder on a screen with no step. */
  method BuildPastExperience(b: ResumeBuilder) returns (screen: Screen)
    requires b.Valid() && b.Screen() == StartChoice
    modifies b
    ensures screen == Steps([])
  {
    b.SelectMode(Build);
    var a1 := b.ClickNext();
    var a2 := b.ClickNext();
    screen := b.Screen();
  }
}
