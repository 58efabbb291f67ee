/**
 * The job-seeker page at `/home`: blank for a logged-in user, otherwise a
 * blue-collar and a white-collar button that lead to `/auth?type=...`.
 */
module Home {
  import opened Forms
  import App

  /** What the page renders: an empty `<div>` (no navigation at all), or the two buttons. */
  datatype View = EmptyDiv | Chooser

  function Render(session: Option<App.Session>): (v: View)
    ensures v == EmptyDiv <==> session.Some?
  {
    if session.Some? then EmptyDiv else Chooser
  }

  const AuthPrefix := "/auth?type="

  /** The types the blue and the white button pass to `handleSelectType`. */
  const BlueButton := "blue"
  const WhiteButton := "white"

  /** `` navigate(`/auth?type=${type}`) ``: the prefix followed by the type, verbatim. */
  function SelectType(t: string): (target: string)
    ensures |target| == |AuthPrefix| + |t|
    ensures target[..|AuthPrefix|] == AuthPrefix
    ensures target[|AuthPrefix|..] == t
  {
    AuthPrefix + t
  }
}
