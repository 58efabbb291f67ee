/**
 * The blue-collar profile page: it loads the signed-in user's row from
 * `blue_collar_profiles` into one `formData`, renders all five section
 * components at once, and every section edit both sets `formData` and
 * upserts the merged data as the user's row.
 */
module BlueCollarProfile {
  import opened Forms

  /** The keys of the page's `formData`. */
  const FormKeys: set<string> :=
    {"fullName", "phone", "location", "experience", "education", "skills", "otherSkill", "resume_url"}

  /** The initial `formData`: blank strings, one blank experience, one blank education, no skills. */
  function InitialFormData(): (fd: FormData)
    ensures fd.Keys == FormKeys
    ensures fd["fullName"] == fd["phone"] == fd["location"] == Str("")
    ensures fd["experience"] == Experiences([BlankExperience])
    ensures fd["education"] == Educations([BlankEducation])
    ensures fd["skills"] == Strs([]) && fd["otherSkill"] == Str("") && fd["resume_url"] == Str("")
  {
    map[
      "fullName" := Str(""), "phone" := Str(""), "location" := Str(""),
      "experience" := Experiences([BlankExperience]),
      "education" := Educations([BlankEducation]),
      "skills" := Strs([]), "otherSkill" := Str(""), "resume_url" := Str("")]
  }

  /** A form key and the row column it is saved in. */
  datatype Column = Column(formKey: string, name: string)

  /** The camelCase form keys and their snake_case columns, one for one. */
  const Columns: seq<Column> := [
    Column("fullName", "full_name"), Column("phone", "phone"), Column("location", "location"),
    Column("experience", "experience"), Column("education", "education"), Column("skills", "skills"),
    Column("otherSkill", "other_skill"), Column("resume_url", "resume_url")]

  /**
   * A loaded row as `formData`: each column, or the initial value when the
   * column is missing, null or an empty string.
   */
  function FormFromRow(row: FormData): (fd: FormData)
    ensures fd.Keys == FormKeys
  {
    map[
      "fullName" := Or(Get(row, "full_name"), Str("")),
      "phone" := Or(Get(row, "phone"), Str("")),
      "location" := Or(Get(row, "location"), Str("")),
      "experience" := Or(Get(row, "experience"), Experiences([BlankExperience])),
      "education" := Or(Get(row, "education"), Educations([BlankEducation])),
      "skills" := Or(Get(row, "skills"), Strs([])),
      "otherSkill" := Or(Get(row, "other_skill"), Str("")),
      "resume_url" := Or(Get(row, "resume_url"), Str(""))]
  }

  /** The columns of a `blue_collar_profiles` row. */
  const RowColumns: set<string> :=
    {"id", "full_name", "phone", "location", "experience", "education", "skills", "other_skill", "resume_url"}

  /** The row the page upserts for user `userId`: the id and the eight form fields under their column names. */
  function RowFromForm(userId: string, fd: FormData): (row: FormData)
    ensures row.Keys == RowColumns
  {
    map[
      "id" := Str(userId),
      "full_name" := Get(fd, "fullName"),
      "phone" := Get(fd, "phone"),
      "location" := Get(fd, "location"),
      "experience" := Get(fd, "experience"),
      "education" := Get(fd, "education"),
      "skills" := Get(fd, "skills"),
      "other_skill" := Get(fd, "otherSkill"),
      "resume_url" := Get(fd, "resume_url")]
  }

  /** Loading takes each column's value, or the field's initial value when the column's value is falsy. */
  lemma LoadColumn(row: FormData, c: Column)
    requires c in Columns
    ensures FormFromRow(row)[c.formKey] == Or(Get(row, c.name), InitialFormData()[c.formKey])
  {
  }

  /** Saving writes the user's id and each form field under its column. */
  lemma SaveColumn(userId: string, fd: FormData, c: Column)
    requires c in Columns
    ensures RowFromForm(userId, fd)["id"] == Str(userId)
    ensures RowFromForm(userId, fd)[c.name] == Get(fd, c.formKey)
  {
  }

  /** A `formData` with exactly the page's keys, each holding a value of its own kind. */
  predicate WellFormed(fd: FormData) {
    && fd.Keys == FormKeys
    && fd["fullName"].Str? && fd["phone"].Str? && fd["location"].Str?
    && fd["experience"].Experiences? && fd["education"].Educations?
    && fd["skills"].Strs? && fd["otherSkill"].Str? && fd["resume_url"].Str?
  }

  /** Saving a well-formed form and loading the row back gives the same form. */
  lemma SaveThenLoad(userId: string, fd: FormData)
    requires WellFormed(fd)
    ensures FormFromRow(RowFromForm(userId, fd)) == fd
  {
    var row := RowFromForm(userId, fd);
    var back := FormFromRow(row);
    StringColumnLoads(row, "full_name", fd["fullName"]);
    StringColumnLoads(row, "phone", fd["phone"]);
    StringColumnLoads(row, "location", fd["location"]);
    StringColumnLoads(row, "other_skill", fd["otherSkill"]);
    StringColumnLoads(row, "resume_url", fd["resume_url"]);
    assert back["experience"] == fd["experience"];
    assert back["education"] == fd["education"];
    assert back["skills"] == fd["skills"];
  }

  /** A string column loads as itself, the empty string included. */
  lemma StringColumnLoads(row: FormData, column: string, v: Value)
    requires column in row && row[column] == v && v.Str?
    ensures Or(Get(row, column), Str("")) == v
  {
  }

  /** A row holding only its id loads as the initial form. */
  lemma EmptyRowLoadsInitialForm(userId: string)
    ensures FormFromRow(map["id" := Str(userId)]) == InitialFormData()
  {
    var row := map["id" := Str(userId)];
    assert Get(row, "full_name") == Undefined;
    assert Get(row, "phone") == Undefined;
    assert Get(row, "location") == Undefined;
    assert Get(row, "experience") == Undefined;
    assert Get(row, "education") == Undefined;
    assert Get(row, "skills") == Undefined;
    assert Get(row, "other_skill") == Undefined;
    assert Get(row, "resume_url") == Undefined;
  }

  /**
   * The upserted row does not depend on a `resume` key: the upload step
   * stores the chosen file under `resume`, which is never saved.
   */
  lemma ResumeFileNotSaved(userId: string, fd: FormData, file: Value)
    ensures RowFromForm(userId, fd["resume" := file]) == RowFromForm(userId, fd)
  {
    var fd' := fd["resume" := file];
    forall k | k in FormKeys
      ensures Get(fd', k) == Get(fd, k)
    {
    }
  }

  /**
   * A section component passes the whole form with its changes
   * (`{ ...formData, ... }`); then merging it into the stale `formData` of
   * the save callback gives exactly what the component passed.
   */
  lemma FullSectionMergeIsSection(rendered: FormData, data: FormData)
    requires rendered.Keys <= data.Keys
    ensures Spread(rendered, data) == data
  {
  }

  /** The section components, each given the page's `formData`. */
  datatype Section =
    | PersonalInfoSection(fields: seq<string>)
    | WorkExperienceSection
    | EducationSection
    | SkillsSection
    | UploadSection

  datatype View = LoadingView | Sections(sections: seq<Section>)

  /** The personal-info fields the first section asks for. */
  const PersonalInfoFields: seq<string> := ["fullName", "phone", "location"]

  /** While loading, only the loading text; afterwards all five sections, in order, whatever the step. */
  function Render(loading: bool): (v: View)
    ensures v == LoadingView <==> loading
    ensures !loading ==>
      (&& |v.sections| == 5
       && v.sections[0] == PersonalInfoSection(PersonalInfoFields)
       && v.sections[1] == WorkExperienceSection
       && v.sections[2] == EducationSection
       && v.sections[3] == SkillsSection
       && v.sections[4] == UploadSection)
  {
    if loading then LoadingView
    else Sections([PersonalInfoSection(PersonalInfoFields), WorkExperienceSection, EducationSection,
                   SkillsSection, UploadSection])
  }

  class BlueCollarProfile {
    /** The signed-in user's id, once loaded. */
    var user: Option<string>
    var loading: bool
    var formData: FormData
    /** Set by the sections' next and back buttons and never read. */
    var step: int

    constructor()
      ensures user.None? && loading && formData == InitialFormData() && step == 1
    {
      user := None;
      loading := true;
      formData := InitialFormData();
      step := 1;
    }

    function View(): View
      reads this
    {
      Render(loading)
    }

    /**
     * The mount effect, given the auth reply and the profile row (`None`
     * when the select finds no row or fails).  Without a user it returns
     * early and the page keeps loading; otherwise it records the user,
     * loads an existing row and stops loading.
     */
    method LoadUserAndProfile(authUser: Option<string>, row: Option<FormData>)
      modifies this
      ensures step == old(step)
      ensures authUser.None? ==> user == old(user) && loading == old(loading) && formData == old(formData)
      ensures authUser.Some? ==> user == authUser && !loading
      ensures authUser.Some? && row.Some? ==> formData == FormFromRow(row.value)
      ensures authUser.Some? && row.None? ==> formData == old(formData)
    {
      if authUser.None? {
        return;
      }
      user := authUser;
      if row.Some? {
        formData := FormFromRow(row.value);
      }
      loading := false;
    }

    /**
     * `saveSection`, closed over the `formData` of the render that created
     * it (`rendered`): without a user nothing happens; otherwise the merge
     * `{ ...rendered, ...section }` becomes `formData` and is upserted.
     */
    method SaveSection(rendered: FormData, section: FormData) returns (upserted: Option<FormData>)
      modifies this
      ensures user == old(user) && loading == old(loading) && step == old(step)
      ensures user.None? ==> formData == old(formData) && upserted.None?
      ensures user.Some? ==> formData == Spread(rendered, section)
      ensures user.Some? ==> upserted == Some(RowFromForm(user.value, formData))
    {
      if user.None? {
        return None;
      }
      formData := Spread(rendered, section);
      upserted := Some(RowFromForm(user.value, formData));
    }

    /** The `setFormData` every section is given: set the data, then save it. */
    method SectionSetFormData(data: FormData) returns (upserted: Option<FormData>)
      modifies this
      ensures user == old(user) && loading == old(loading) && step == old(step)
      ensures user.None? ==> formData == data && upserted.None?
      ensures user.Some? ==> formData == Spread(old(formData), data)
      ensures user.Some? ==> upserted == Some(RowFromForm(user.value, formData))
    {
      var rendered := formData;
      formData := data;
      upserted := SaveSection(rendered, data);
    }

    /** A section's next or back button: sections 1..4 move to the following step, section 5 only alerts. */
    method SectionNext(section: nat) returns (alerted: bool)
      requires 1 <= section <= 5
      modifies this
      ensures alerted <==> section == 5
      ensures step == if section == 5 then old(step) else section + 1
      ensures user == old(user) && loading == old(loading) && formData == old(formData)
    {
      alerted := section == 5;
      if !alerted {
        step := section + 1;
      }
    }

    /** A section's back button, offered by sections 2..5: moves to the step before it. */
    method SectionBack(section: nat)
      requires 2 <= section <= 5
      modifies this
      ensures step == section - 1
      ensures user == old(user) && loading == old(loading) && formData == old(formData)
    {
      step := section - 1;
    }
  }

  /** The step the buttons set never changes what the page shows. */
  method StepNotRead(p: BlueCollarProfile, section: nat) returns (before: View, after: View)
    requires 1 <= section <= 5
    modifies p
    ensures before == after
  {
    before := p.View();
    var alerted := p.SectionNext(section);
    after := p.View();
  }

  /**
   * Signed in, editing a section and saving: the upserted row loads back as
   * the form the section passed, when that form is well formed and covers
   * the page's keys.
   */
  method EditSaveReload(p: BlueCollarProfile, data: FormData) returns (reloaded: FormData)
    requires p.user.Some? && p.formData.Keys <= data.Keys && WellFormed(data)
    modifies p
    ensures p.formData == data && reloaded == data
  {
    var upserted := p.SectionSetFormData(data);
    FullSectionMergeIsSection(old(p.formData), data);
    SaveThenLoad(p.user.value, data);
    reloaded := FormFromRow(upserted.value);
  }
}
