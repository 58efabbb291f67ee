/**
 * The landing page at `/`: it sends any logged-in user to `/dashboard`, and
 * otherwise offers a company box and a job-seeker box.
 */
module Original {
  import opened Forms
  import App

  /** What rendering the page does: navigate away and render nothing, or show the two boxes. */
  datatype View = RedirectTo(target: string) | Chooser

  /** Any session, whatever its type, is sent to `/dashboard` and nothing is rendered. */
  function Render(session: Option<App.Session>): (v: View)
    ensures v.RedirectTo? <==> session.Some?
    ensures v.RedirectTo? ==> v.target == "/dashboard"
  {
    if session.Some? then RedirectTo("/dashboard") else Chooser
  }

  /** The choices the two boxes pass to `handleSelectType`. */
  const CompanyChoice := "company"
  const JobSeekerChoice := "jobseeker"

  /** `handleSelectType`: where a choice navigates; any other choice navigates nowhere. */
  function SelectType(choice: string): (target: Option<string>)
    ensures target == Some("/auth?type=company") <==> choice == CompanyChoice
    ensures target == Some("/home") <==> choice == JobSeekerChoice
    ensures target.None? <==> choice != CompanyChoice && choice != JobSeekerChoice
  {
    if choice == CompanyChoice then Some("/auth?type=company")
    else if choice == JobSeekerChoice then Some("/home")
    else None
  }
}
