/**
 * The résumé upload step: it accepts PDF and Word files, stores the chosen
 * file under `formData.uploadedResume`, and enables next only once a
 * résumé is stored.
 */
module ResumeUploadResumeStep {
  import opened Forms

  /** The accepted MIME types: PDF, Word 97-2003 and Word 2007+. */
  const ValidTypes: seq<string> := [
    "application/pdf",
    "application/msword",
    "application/vnd.openxmlformats-officedocument.wordprocessingml.document"]

  /** The error text's translation key. */
  const InvalidFileError := "invalid_file"

  /** The next button is disabled iff no résumé is stored. */
  function NextDisabled(fd: FormData): (disabled: bool)
    ensures Get(fd, "uploadedResume").FileRef? ==> !disabled
    ensures Get(fd, "uploadedResume") in {Null, Undefined, Str("")} ==> disabled
  {
    !Truthy(Get(fd, "uploadedResume"))
  }

  class UploadResumeStep {
    /** `error`; `None` is `null`. */
    var error: Option<string>

    constructor()
      ensures error.None?
    {
      error := None;
    }

    /**
     * `handleFileChange` with the first chosen file, if any; `next` is what
     * it passes to `setFormData`, if it calls it.  No file changes nothing;
     * a type outside the list sets the error; an accepted type clears it and
     * stores the file.
     */
    method HandleFileChange(file: Option<File>, fd: FormData) returns (next: Option<FormData>)
      modifies this
      ensures file.None? ==> error == old(error) && next.None?
      ensures file.Some? && file.value.mime !in ValidTypes ==> error == Some(InvalidFileError) && next.None?
      ensures file.Some? && file.value.mime in ValidTypes ==>
        error.None? && next.Some? && SameExcept(fd, next.value, "uploadedResume")
        && next.value["uploadedResume"] == FileRef(file.value)
    {
      next := None;
      if file.Some? {
        if file.value.mime !in ValidTypes {
          error := Some(InvalidFileError);
          return;
        }
        error := None;
        next := Some(Put(fd, "uploadedResume", FileRef(file.value)));
      }
    }
  }

  /**
   * Choosing an accepted file and then a rejected one keeps the first file
   * stored, shows the error, and leaves next enabled.
   */
  method ValidThenInvalid(u: UploadResumeStep, fd: FormData, good: File, bad: File) returns (current: FormData)
    requires good.mime in ValidTypes && bad.mime !in ValidTypes
    modifies u
    ensures Get(current, "uploadedResume") == FileRef(good)
    ensures u.error == Some(InvalidFileError) && !NextDisabled(current)
  {
    var first := u.HandleFileChange(Some(good), fd);
    current := first.value;
    var second := u.HandleFileChange(Some(bad), current);
  }
}
