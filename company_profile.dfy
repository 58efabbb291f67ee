/**
 * The company profile form: four company fields and a list of open job
 * positions that can be edited field by field, extended and shortened.
 */
module CompanyProfile {
  import Lists

  /** One open position; `jobType` is the select's value. */
  datatype Job = Job(title: string, jobType: string, skills: string, experience: string,
                     education: string, notes: string)

  /** The `name` attributes of a job's inputs. */
  datatype JobField = Title | JobType | Skills | Experience | Education | Notes

  function JobGet(j: Job, f: JobField): string {
    match f
    case Title => j.title
    case JobType => j.jobType
    case Skills => j.skills
    case Experience => j.experience
    case Education => j.education
    case Notes => j.notes
  }

  /** `job[name] = value`: the named field changes and no other. */
  function JobSet(j: Job, f: JobField, v: string): (r: Job)
    ensures JobGet(r, f) == v
    ensures forall g :: g != f ==> JobGet(r, g) == JobGet(j, g)
  {
    match f
    case Title => j.(title := v)
    case JobType => j.(jobType := v)
    case Skills => j.(skills := v)
    case Experience => j.(experience := v)
    case Education => j.(education := v)
    case Notes => j.(notes := v)
  }

  /** A new position: every field blank, of type `white`. */
  const BlankJob := Job("", "white", "", "", "", "")

  /** The values the job-type select offers. */
  const JobTypeOptions: seq<string> := ["white", "blue"]

  /** The company fields, all blank at first. */
  const CompanyKeys: set<string> := {"companyName", "email", "description", "location"}

  function InitialCompanyData(): (d: map<string, string>)
    ensures d.Keys == CompanyKeys && forall k :: k in d ==> d[k] == ""
  {
    map["companyName" := "", "email" := "", "description" := "", "location" := ""]
  }

  /** The inputs rendered for a job, in order: the education input only for a `white` job. */
  function JobInputs(j: Job): (inputs: seq<JobField>)
    ensures Education in inputs <==> j.jobType == "white"
    ensures Title in inputs && JobType in inputs && Skills in inputs && Experience in inputs && Notes in inputs
    ensures inputs[0] == Title && inputs[|inputs| - 1] == Notes
  {
    [Title, JobType, Skills, Experience] + (if j.jobType == "white" then [Education] else []) + [Notes]
  }

  /** Whatever the select chose, a `blue` job hides the education input and a `white` one shows it. */
  lemma SelectDecidesEducation(j: Job, choice: string)
    requires choice in JobTypeOptions
    ensures Education in JobInputs(JobSet(j, JobType, choice)) <==> choice == "white"
    ensures Education !in JobInputs(JobSet(j, JobType, choice)) <==> choice == "blue"
  {
  }

  /** The remove button is rendered on every job iff there is more than one. */
  predicate RemoveOffered(jobs: seq<Job>) {
    |jobs| > 1
  }

  class CompanyProfile {
    var companyData: map<string, string>
    var jobs: seq<Job>

    constructor()
      ensures companyData == InitialCompanyData() && jobs == [BlankJob]
      ensures Valid()
    {
      companyData := InitialCompanyData();
      jobs := [BlankJob];
    }

    /** The job list is never empty. */
    predicate Valid()
      reads this
    {
      |jobs| >= 1
    }

    /** `handleCompanyChange`: the named field takes the value; the other fields and the jobs are unchanged. */
    method HandleCompanyChange(name: string, value: string)
      modifies this
      ensures companyData.Keys == old(companyData).Keys + {name}
      ensures companyData[name] == value
      ensures forall k :: k in old(companyData) && k != name ==> companyData[k] == old(companyData)[k]
      ensures jobs == old(jobs)
      ensures companyData == old(companyData)[name := value]
    {
      companyData := companyData[name := value];
    }

    /**
     * `handleJobChange(index, e)`: in a copy of the list, field `name` of
     * job `index` takes the value; every other job, every other field and
     * the length are unchanged.
     */
    method HandleJobChange(index: nat, name: JobField, value: string)
      requires index < |jobs|
      modifies this
      ensures |jobs| == |old(jobs)|
      ensures JobGet(jobs[index], name) == value
      ensures forall g :: g != name ==> JobGet(jobs[index], g) == JobGet(old(jobs)[index], g)
      ensures forall i :: 0 <= i < |jobs| && i != index ==> jobs[i] == old(jobs)[i]
      ensures companyData == old(companyData)
      ensures jobs == old(jobs)[index := JobSet(old(jobs)[index], name, value)]
    {
      var updated := jobs;
      updated := updated[index := JobSet(updated[index], name, value)];
      jobs := updated;
    }

    /** `addJob`: one blank `white` job at the end; the existing jobs stay as a prefix. */
    method AddJob()
      modifies this
      ensures |jobs| == |old(jobs)| + 1
      ensures jobs[..|old(jobs)|] == old(jobs) && jobs[|old(jobs)|] == BlankJob
      ensures companyData == old(companyData)
    {
      jobs := jobs + [BlankJob];
    }

    /** `removeJob(index)`: the job at `index` is dropped and the others keep their order. */
    method RemoveJob(index: nat)
      requires index < |jobs|
      modifies this
      ensures jobs == old(jobs)[..index] + old(jobs)[index + 1..]
      ensures |jobs| == |old(jobs)| - 1
      ensures companyData == old(companyData)
    {
      jobs := Lists.RemoveAt(jobs, index);
    }

    /** A job's remove button, rendered only while there is more than one job: the list stays non-empty. */
    method ClickRemove(index: nat)
      requires Valid() && RemoveOffered(jobs) && index < |jobs|
      modifies this
      ensures Valid()
      ensures jobs == Lists.RemoveAt(old(jobs), index)
      ensures companyData == old(companyData)
    {
      RemoveJob(index);
    }

    /** `handleSubmit`: it only logs the data and alerts; nothing changes. */
    method Submit() returns (loggedCompany: map<string, string>, loggedJobs: seq<Job>)
      ensures loggedCompany == companyData && loggedJobs == jobs
    {
      loggedCompany, loggedJobs := companyData, jobs;
    }
  }

  /** What a user can do on the form: type into a company field or a job field, or press add or a job's remove. */
  datatype Action =
    | CompanyChange(field: string, text: string)
    | JobChange(index: nat, name: JobField, value: string)
    | AddPosition
    | RemovePosition(index: nat)

  /** Whether the control an action uses is on screen: a job's inputs exist, and remove shows only with two or more jobs. */
  predicate Offered(jobs: seq<Job>, a: Action) {
    match a
    case CompanyChange(_, _) => true
    case JobChange(i, _, _) => i < |jobs|
    case AddPosition => true
    case RemovePosition(i) => RemoveOffered(jobs) && i < |jobs|
  }

  /** The job list after one action; an action whose control is not on screen cannot happen and changes nothing. */
  function JobsAfter(jobs: seq<Job>, a: Action): (r: seq<Job>)
    ensures !Offered(jobs, a) ==> r == jobs
    ensures Offered(jobs, a) && a.AddPosition? ==> r == jobs + [BlankJob]
    ensures Offered(jobs, a) && a.RemovePosition? ==> r == Lists.RemoveAt(jobs, a.index) && |r| == |jobs| - 1 >= 1
    ensures Offered(jobs, a) && a.JobChange? ==>
      |r| == |jobs| && r[a.index] == JobSet(jobs[a.index], a.name, a.value)
      && forall i :: 0 <= i < |jobs| && i != a.index ==> r[i] == jobs[i]
    ensures a.CompanyChange? ==> r == jobs
  {
    if !Offered(jobs, a) then jobs
    else
      match a
      case CompanyChange(_, _) => jobs
      case JobChange(i, n, v) => jobs[i := JobSet(jobs[i], n, v)]
      case AddPosition => jobs + [BlankJob]
      case RemovePosition(i) => Lists.RemoveAt(jobs, i)
  }

  /** The company fields after one action. */
  function CompanyAfter(data: map<string, string>, a: Action): (r: map<string, string>)
    ensures a.CompanyChange? ==> r.Keys == data.Keys + {a.field} && r[a.field] == a.text
    ensures !a.CompanyChange? ==> r == data
  {
    if a.CompanyChange? then data[a.field := a.text] else data
  }

  /** The job list after a sequence of actions, the last one applied last. */
  function JobsAfterAll(jobs: seq<Job>, actions: seq<Action>): seq<Job>
    decreases |actions|
  {
    if actions == [] then jobs
    else JobsAfter(JobsAfterAll(jobs, actions[..|actions| - 1]), actions[|actions| - 1])
  }

  /** The company fields after a sequence of actions. */
  function CompanyAfterAll(data: map<string, string>, actions: seq<Action>): map<string, string>
    decreases |actions|
  {
    if actions == [] then data
    else CompanyAfter(CompanyAfterAll(data, actions[..|actions| - 1]), actions[|actions| - 1])
  }

  /** Whatever the user does, starting from at least one job, at least one job remains. */
  lemma {:induction false} ActionsKeepAJob(jobs: seq<Job>, actions: seq<Action>)
    requires |jobs| >= 1
    ensures |JobsAfterAll(jobs, actions)| >= 1
    decreases |actions|
  {
    if actions != [] {
      ActionsKeepAJob(jobs, actions[..|actions| - 1]);
    }
  }

  /**
   * A session on the form: each action goes to its handler when its control
   * is on screen.  The new state is the one the actions determine, and the
   * job list is never empty.
   */
  method EditsKeepAJob(p: CompanyProfile, actions: seq<Action>)
    requires p.Valid()
    modifies p
    ensures p.jobs == JobsAfterAll(old(p.jobs), actions)
    ensures p.companyData == CompanyAfterAll(old(p.companyData), actions)
    ensures p.Valid()
  {
    var k := 0;
    while k < |actions|
      invariant 0 <= k <= |actions|
      invariant p.Valid()
      invariant p.jobs == JobsAfterAll(old(p.jobs), actions[..k])
      invariant p.companyData == CompanyAfterAll(old(p.companyData), actions[..k])
    {
      var a := actions[k];
      assert actions[..k + 1][..k] == actions[..k];
      if Offered(p.jobs, a) {
        match a
        case CompanyChange(f, t) => p.HandleCompanyChange(f, t);
        case JobChange(i, n, v) => p.HandleJobChange(i, n, v);
        case AddPosition => p.AddJob();
        case RemovePosition(i) => p.ClickRemove(i);
      }
      k := k + 1;
    }
    assert actions[..k] == actions;
  }

  /** Adding a job and removing it again restores the list. */
  method AddThenRemoveLast(p: CompanyProfile)
    modifies p
    ensures p.jobs == old(p.jobs) && p.companyData == old(p.companyData)
  {
    p.AddJob();
    p.RemoveJob(|p.jobs| - 1);
    Lists.AppendThenRemoveLast(old(p.jobs), BlankJob);
  }
}
