/**
 * The values the React pages keep in their `formData` objects and the
 * values stored in profile rows.  A JavaScript object is a map from key to
 * value; `undefined` for a missing key and JavaScript truthiness are modelled
 * explicitly because the pages rely on them (`obj.key || default`).
 */
module Forms {

  datatype Option<+T> = None | Some(value: T) {
    /** `x ?? d`: the value, or `d` when absent. */
    function GetOr(d: T): T {
      if Some? then value else d
    }
  }

  /** A browser `File`: its `name` and its MIME `type`. */
  datatype File = File(name: string, mime: string)

  /** One entry of the `experience` list. */
  datatype Experience = Experience(
    jobTitle: string, company: string, startDate: string, endDate: string, description: string)

  /** The field names an experience input writes (`handleChange(index, field, value)`). */
  datatype ExperienceField = JobTitle | Company | StartDate | EndDate | Description

  /** One entry of the `education` list. */
  datatype Education = Education(degree: string, institution: string, year: string)

  datatype EducationField = Degree | Institution | Year

  /** `{ jobTitle: '', company: '', startDate: '', endDate: '', description: '' }` */
  const BlankExperience := Experience("", "", "", "", "")

  /** `{ degree: '', institution: '', year: '' }` */
  const BlankEducation := Education("", "", "")

  /** `entry[field]` */
  function ExperienceGet(e: Experience, f: ExperienceField): string {
    match f
    case JobTitle => e.jobTitle
    case Company => e.company
    case StartDate => e.startDate
    case EndDate => e.endDate
    case Description => e.description
  }

  /** `entry[field] = value`: the named field changes and no other. */
  function ExperienceSet(e: Experience, f: ExperienceField, v: string): (r: Experience)
    ensures ExperienceGet(r, f) == v
    ensures forall g :: g != f ==> ExperienceGet(r, g) == ExperienceGet(e, g)
  {
    match f
    case JobTitle => e.(jobTitle := v)
    case Company => e.(company := v)
    case StartDate => e.(startDate := v)
    case EndDate => e.(endDate := v)
    case Description => e.(description := v)
  }

  function EducationGet(e: Education, f: EducationField): string {
    match f
    case Degree => e.degree
    case Institution => e.institution
    case Year => e.year
  }

  function EducationSet(e: Education, f: EducationField, v: string): (r: Education)
    ensures EducationGet(r, f) == v
    ensures forall g :: g != f ==> EducationGet(r, g) == EducationGet(e, g)
  {
    match f
    case Degree => e.(degree := v)
    case Institution => e.(institution := v)
    case Year => e.(year := v)
  }

  /** The values that occur in the forms and in profile rows. */
  datatype Value =
    | Str(s: string)
    | Null
    | Undefined
    | Experiences(experiences: seq<Experience>)
    | Educations(educations: seq<Education>)
    | Strs(items: seq<string>)
    | FileRef(file: File)

  /** A JavaScript object: a form's `formData`, a database row, a loaded profile. */
  type FormData = map<string, Value>

  /** `obj[key]`: `undefined` when the key is missing. */
  function Get(m: FormData, key: string): Value {
    if key in m then m[key] else Undefined
  }

  /** JavaScript truthiness: `''`, `null` and `undefined` are falsy; arrays and objects are truthy. */
  predicate Truthy(v: Value) {
    match v
    case Str(s) => s != ""
    case Null => false
    case Undefined => false
    case _ => true
  }

  /** `a || d` */
  function Or(a: Value, d: Value): (r: Value)
    ensures Truthy(a) ==> r == a
    ensures !Truthy(a) ==> r == d
  {
    if Truthy(a) then a else d
  }

  /** `after` has the keys of `before` plus `key`, and agrees with `before` on every other key. */
  predicate SameExcept(before: FormData, after: FormData, key: string) {
    && after.Keys == before.Keys + {key}
    && forall k :: k in before && k != key ==> after[k] == before[k]
  }

  /** `{ ...m, [key]: v }` */
  function Put(m: FormData, key: string, v: Value): (r: FormData)
    ensures SameExcept(m, r, key) && r[key] == v
  {
    m[key := v]
  }

  /** `{ ...a, ...b }`: keys of `b` override those of `a`; every other key of `a` is kept. */
  function Spread(a: FormData, b: FormData): (r: FormData)
    ensures r.Keys == a.Keys + b.Keys
    ensures forall k :: k in b ==> r[k] == b[k]
    ensures forall k :: k in a && k !in b ==> r[k] == a[k]
  {
    a + b
  }

  predicate HasExperiences(fd: FormData) {
    "experience" in fd && fd["experience"].Experiences?
  }

  predicate HasEducations(fd: FormData) {
    "education" in fd && fd["education"].Educations?
  }

  predicate HasSkills(fd: FormData) {
    "skills" in fd && fd["skills"].Strs?
  }

  /** `formData.experience` */
  function ExperiencesOf(fd: FormData): seq<Experience>
    requires HasExperiences(fd)
  {
    fd["experience"].experiences
  }

  /**
   * `handleChange(index, field, value)` of both work-experience components:
   * copy the list, assign the field of entry `index` in the copy, and store
   * the copy.  Only that field of that entry changes; the length, the other
   * entries and the other keys stay.
   */
  method ChangeExperience(fd: FormData, index: nat, field: ExperienceField, value: string) returns (next: FormData)
    requires HasExperiences(fd) && index < |ExperiencesOf(fd)|
    ensures SameExcept(fd, next, "experience") && HasExperiences(next)
    ensures |ExperiencesOf(next)| == |ExperiencesOf(fd)|
    ensures ExperienceGet(ExperiencesOf(next)[index], field) == value
    ensures forall g :: g != field ==>
      ExperienceGet(ExperiencesOf(next)[index], g) == ExperienceGet(ExperiencesOf(fd)[index], g)
    ensures forall i :: 0 <= i < |ExperiencesOf(fd)| && i != index ==> ExperiencesOf(next)[i] == ExperiencesOf(fd)[i]
  {
    var updated := ExperiencesOf(fd);
    updated := updated[index := ExperienceSet(updated[index], field, value)];
    next := Put(fd, "experience", Experiences(updated));
  }

  /** The add button of both work-experience components: one blank entry at the end; everything else is kept. */
  function AddExperience(fd: FormData): (next: FormData)
    requires HasExperiences(fd)
    ensures SameExcept(fd, next, "experience") && HasExperiences(next)
    ensures ExperiencesOf(next) == ExperiencesOf(fd) + [BlankExperience]
  {
    Put(fd, "experience", Experiences(ExperiencesOf(fd) + [BlankExperience]))
  }

  /** `formData.education` */
  function EducationsOf(fd: FormData): seq<Education>
    requires HasEducations(fd)
  {
    fd["education"].educations
  }

  /** `formData.skills` */
  function SkillsOf(fd: FormData): seq<string>
    requires HasSkills(fd)
  {
    fd["skills"].items
  }
}
