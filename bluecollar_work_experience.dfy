/**
 * The blue-collar work-experience component.  It edits and adds entries of
 * `formData.experience` with the shared `Forms.ChangeExperience` and
 * `Forms.AddExperience` (there is no removal), and, when `required`, it
 * refuses to go on until some entry names both a job title and a company.
 */
module BlueCollarWorkExperience {
  import opened Forms

  /** An entry that counts for the check: non-empty job title and non-empty company. */
  predicate Complete(e: Experience) {
    e.jobTitle != "" && e.company != ""
  }

  /** `experience.some(exp => exp.jobTitle && exp.company)` */
  function SomeComplete(entries: seq<Experience>): (b: bool)
    ensures b <==> exists i :: 0 <= i < |entries| && Complete(entries[i])
  {
    if entries == [] then false
    else if Complete(entries[0]) then true
    else
      var rest := SomeComplete(entries[1..]);
      assert forall i :: 1 <= i < |entries| ==> entries[i] == entries[1..][i - 1];
      rest
  }

  datatype SubmitOutcome = Warned | Advanced

  /** `handleSubmit`: warn and stay when required and no entry is complete; otherwise call `onNext`. */
  function HandleSubmit(required: bool, fd: FormData): (o: SubmitOutcome)
    requires HasExperiences(fd)
    ensures o == Warned <==>
      required && forall i :: 0 <= i < |ExperiencesOf(fd)| ==> !Complete(ExperiencesOf(fd)[i])
  {
    if required && !SomeComplete(ExperiencesOf(fd)) then Warned else Advanced
  }

  /**
   * Only job titles and companies decide the check: two forms whose entries
   * agree on those, whatever their dates and descriptions, submit alike.
   */
  lemma SubmitIgnoresDatesAndDescription(required: bool, fd1: FormData, fd2: FormData)
    requires HasExperiences(fd1) && HasExperiences(fd2)
    requires |ExperiencesOf(fd1)| == |ExperiencesOf(fd2)|
    requires forall i :: 0 <= i < |ExperiencesOf(fd1)| ==>
      ExperiencesOf(fd1)[i].jobTitle == ExperiencesOf(fd2)[i].jobTitle
      && ExperiencesOf(fd1)[i].company == ExperiencesOf(fd2)[i].company
    ensures HandleSubmit(required, fd1) == HandleSubmit(required, fd2)
  {
    var e1, e2 := ExperiencesOf(fd1), ExperiencesOf(fd2);
    assert forall i :: 0 <= i < |e1| ==> (Complete(e1[i]) <==> Complete(e2[i]));
  }

  /** Adding an entry never makes a passing submit warn: a blank entry is never complete. */
  lemma AddKeepsSubmitOutcome(required: bool, fd: FormData)
    requires HasExperiences(fd)
    ensures HandleSubmit(required, AddExperience(fd)) == HandleSubmit(required, fd)
  {
    var before := ExperiencesOf(fd);
    var after := ExperiencesOf(AddExperience(fd));
    assert !Complete(after[|before|]);
    assert forall i :: 0 <= i < |before| ==> after[i] == before[i];
  }
}
