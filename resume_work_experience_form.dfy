/**
 * The résumé work-experience step (also used by the white-collar and
 * blue-collar pages): edits, adds and removes entries of
 * `formData.experience`.  Editing and adding are the shared
 * `Forms.ChangeExperience` and `Forms.AddExperience`; removal is its own.
 * Its next and back buttons call their callbacks without any check.
 */
module ResumeWorkExperienceForm {
  import opened Forms
  import Lists

  /**
   * `handleRemoveExperience(index)`: the filter that drops index `index`,
   * which removes exactly that entry and keeps the order of the rest.
   */
  function HandleRemoveExperience(fd: FormData, index: nat): (next: FormData)
    requires HasExperiences(fd)
    ensures SameExcept(fd, next, "experience") && HasExperiences(next)
    ensures ExperiencesOf(next) == Lists.RemoveAt(ExperiencesOf(fd), index)
  {
    Lists.FilterOutIndexIsRemoveAt(ExperiencesOf(fd), index, 0);
    Put(fd, "experience", Experiences(Lists.FilterOutIndex(ExperiencesOf(fd), index, 0)))
  }

  /** The remove button shows on every entry iff there is more than one. */
  predicate RemoveOffered(fd: FormData)
    requires HasExperiences(fd)
  {
    |ExperiencesOf(fd)| > 1
  }

  /** Removing through a shown button leaves at least one entry. */
  lemma OfferedRemoveKeepsAnEntry(fd: FormData, index: nat)
    requires HasExperiences(fd) && RemoveOffered(fd) && index < |ExperiencesOf(fd)|
    ensures |ExperiencesOf(HandleRemoveExperience(fd, index))| == |ExperiencesOf(fd)| - 1 >= 1
  {
  }

  /** Adding an entry and removing the last one gives back the same `formData`. */
  lemma AddThenRemoveLast(fd: FormData)
    requires HasExperiences(fd)
    ensures HandleRemoveExperience(AddExperience(fd), |ExperiencesOf(fd)|) == fd
  {
    Lists.AppendThenRemoveLast(ExperiencesOf(fd), BlankExperience);
    var back := HandleRemoveExperience(AddExperience(fd), |ExperiencesOf(fd)|);
    assert back["experience"] == fd["experience"];
  }
}
