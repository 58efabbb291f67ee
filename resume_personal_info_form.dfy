/**
 * The résumé personal-info step: four inputs whose values are written
 * under the inputs' names, and a next button with no check.
 */
module ResumePersonalInfoForm {
  import opened Forms

  /** The inputs' `name` attributes, in order. */
  const InputNames: seq<string> := ["fullName", "email", "phone", "location"]

  /** `handleChange` for an event from input `k`: only that input's key changes. */
  function HandleChange(fd: FormData, k: nat, value: string): (next: FormData)
    requires k < |InputNames|
    ensures SameExcept(fd, next, InputNames[k]) && next[InputNames[k]] == Str(value)
    ensures next.Keys == fd.Keys + {InputNames[k]}
  {
    Put(fd, InputNames[k], Str(value))
  }

  /** The same change twice is the same change once. */
  lemma HandleChangeIdempotent(fd: FormData, k: nat, value: string)
    requires k < |InputNames|
    ensures HandleChange(HandleChange(fd, k, value), k, value) == HandleChange(fd, k, value)
  {
  }

  /** Changes to two different inputs commute. */
  lemma ChangesCommute(fd: FormData, j: nat, k: nat, v: string, w: string)
    requires j < |InputNames| && k < |InputNames| && j != k
    ensures HandleChange(HandleChange(fd, j, v), k, w) == HandleChange(HandleChange(fd, k, w), j, v)
  {
  }
}
