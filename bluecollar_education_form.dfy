/**
 * The blue-collar education component: edits and adds entries of
 * `formData.education`.  There is no removal, and its next and back
 * buttons call their callbacks without reading the `optional` prop.
 */
module BlueCollarEducationForm {
  import opened Forms

  /** `handleChange(index, field, value)`: only that field of that entry changes. */
  method HandleChange(fd: FormData, index: nat, field: EducationField, value: string) returns (next: FormData)
    requires HasEducations(fd) && index < |EducationsOf(fd)|
    ensures SameExcept(fd, next, "education") && HasEducations(next)
    ensures |EducationsOf(next)| == |EducationsOf(fd)|
    ensures EducationGet(EducationsOf(next)[index], field) == value
    ensures forall g :: g != field ==>
      EducationGet(EducationsOf(next)[index], g) == EducationGet(EducationsOf(fd)[index], g)
    ensures forall i :: 0 <= i < |EducationsOf(fd)| && i != index ==> EducationsOf(next)[i] == EducationsOf(fd)[i]
    ensures EducationsOf(next) == ApplyEdit(EducationsOf(fd), Change(index, field, value))
  {
    var newEdu := EducationsOf(fd);
    newEdu := newEdu[index := EducationSet(newEdu[index], field, value)];
    next := Put(fd, "education", Educations(newEdu));
  }

  /** `addEducation`: one blank entry at the end; the other keys are kept. */
  function AddEducation(fd: FormData): (next: FormData)
    requires HasEducations(fd)
    ensures SameExcept(fd, next, "education") && HasEducations(next)
    ensures EducationsOf(next) == EducationsOf(fd) + [BlankEducation]
    ensures EducationsOf(next) == ApplyEdit(EducationsOf(fd), Add)
  {
    Put(fd, "education", Educations(EducationsOf(fd) + [BlankEducation]))
  }

  /** The edits the component offers. */
  datatype Edit = Change(index: nat, field: EducationField, value: string) | Add

  /** The list after one edit; a change names an entry on screen, other indices change nothing. */
  function ApplyEdit(entries: seq<Education>, e: Edit): (r: seq<Education>)
    ensures |r| == |entries| + (if e.Add? then 1 else 0)
  {
    match e
    case Add => entries + [BlankEducation]
    case Change(i, f, v) => if i < |entries| then entries[i := EducationSet(entries[i], f, v)] else entries
  }

  /** The list after a sequence of edits. */
  function ApplyEdits(entries: seq<Education>, edits: seq<Edit>): seq<Education>
    decreases |edits|
  {
    if edits == [] then entries
    else
      ApplyEdits(ApplyEdit(entries, edits[0]), edits[1..])
  }

  /** No sequence of edits shortens the list: it grows by exactly one entry per add. */
  lemma {:induction false} EditsNeverShorten(entries: seq<Education>, edits: seq<Edit>)
    ensures |ApplyEdits(entries, edits)| >= |entries|
    ensures |ApplyEdits(entries, edits)| == |entries| + CountAdds(edits)
    decreases |edits|
  {
    if edits != [] {
      EditsNeverShorten(ApplyEdit(entries, edits[0]), edits[1..]);
    }
  }

  /** The number of `Add` edits. */
  function CountAdds(edits: seq<Edit>): nat
    decreases |edits|
  {
    if edits == [] then 0 else (if edits[0].Add? then 1 else 0) + CountAdds(edits[1..])
  }
}
