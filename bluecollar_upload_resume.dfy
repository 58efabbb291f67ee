/**
 * The blue-collar upload step: it accepts only a PDF, stores the chosen
 * file under `formData.resume`, and shows an error otherwise.  Its next
 * and skip buttons both call `onNext` without any check.
 */
module BlueCollarUploadResume {
  import opened Forms

  const PdfType := "application/pdf"

  /** The error text's translation key. */
  const PdfOnlyError := "upload_pdf_only"

  class UploadResume {
    /** `error`, the empty string when there is none. */
    var error: string

    constructor()
      ensures error == ""
    {
      error := "";
    }

    /**
     * `handleFileChange` with the first chosen file, if any, and the current
     * `formData`; `next` is what it passes to `setFormData`, if it calls it.
     * A non-PDF sets the error and keeps the data; a PDF or no file clears
     * the error and writes `resume` (the file, or `undefined`).
     */
    method HandleFileChange(file: Option<File>, fd: FormData) returns (next: Option<FormData>)
      modifies this
      ensures file.Some? && file.value.mime != PdfType ==> error == PdfOnlyError && next.None?
      ensures file.Some? && file.value.mime == PdfType ==>
        error == "" && next.Some? && SameExcept(fd, next.value, "resume") && next.value["resume"] == FileRef(file.value)
      ensures file.None? ==>
        error == "" && next.Some? && SameExcept(fd, next.value, "resume") && next.value["resume"] == Undefined
    {
      if file.Some? && file.value.mime != PdfType {
        error := PdfOnlyError;
        return None;
      }
      error := "";
      var resume := if file.Some? then FileRef(file.value) else Undefined;
      next := Some(Put(fd, "resume", resume));
    }
  }

  /** Whatever file is chosen, the upload never touches `resume_url`. */
  method UploadLeavesResumeUrl(u: UploadResume, file: Option<File>, fd: FormData) returns (next: Option<FormData>)
    modifies u
    ensures next.Some? ==> Get(next.value, "resume_url") == Get(fd, "resume_url")
  {
    next := u.HandleFileChange(file, fd);
  }
}
