# Yalahiree job-board client, modelled in Dafny

Yalahiree is a React job-board client for three kinds of user: blue-collar
job seekers, white-collar job seekers and employer companies. A hosted
backend does all of the authentication and storage. The client is a set of
routes guarded by the session's `user_metadata.type`, an authentication form
with login, sign-up and password-reset modes, and several multi-step profile
wizards. Each wizard keeps its step and a `formData` object in component
state and hands slices of it to form components.

This project models that client:

- Route table and navigation bar (`App`). The route matcher, the guard of
  each protected route and the links shown per role.
- Navigation (`Navigation`). Redirects are followed step by step, with
  relative targets resolved as the router resolves them.
- Landing pages (`Original`, `Home`).
- Authentication form (`Auth`). Its mode flags, which identifier it asks
  for, the login flow (a blue-collar user is looked up by phone first),
  sign-up and password reset.
- Profile pages and wizards (`ProfilePage`, `WhiteCollarProfile`,
  `BlueCollarProfile`, `ResumeBuilder`, `CompanyProfile`). Each is a class
  whose fields are the component's state and whose methods are its event
  handlers.
- Form components, one module per component. Each handler is a function
  from the current `formData` to the one it passes to `setFormData`. A
  component that keeps state of its own (the upload steps' `error`) is a
  class.

Shared vocabulary lives in `Forms`:

- `FormData` is a `map<string, Value>`. `Value` covers the kinds of value
  the forms hold: strings, `null`, `undefined`, entry lists and files.
- `Get` returns `Undefined` for a missing key, as a JavaScript property read
  does. `Or` is `||`, and `Spread(a, b)` is `{ ...a, ...b }`.

`Lists` holds the list edits the forms share.

Session reads, backend calls and their replies become parameters:

- the session from `useSession`;
- the reply of `auth.getUser`;
- the phone lookup;
- `signInWithPassword`, `signUp` and `resetPasswordForEmail`;
- the profile `select`.

A method that sends a request returns that request as a value, e.g. the row
that `saveSection` upserts. Navigation targets are returned as strings.

Where the code and its design description disagree, the model follows the
code:

- A protected route visited without a session is not sent to `/auth`. Its
  fallback targets (`hiteCollarProfile`, `BlueCollarProfile`) are relative,
  so they resolve under the route's own path, hit the catch-all, and end on
  `/`. This is `Navigation.WhiteCollarFallbackEndsAtRoot`.
- A session whose type is not `company` is redirected from `/` to
  `/dashboard` and back forever, because `Original` redirects every session
  to `/dashboard` (`Navigation.NonCompanyNeverSettles`).
- The `?type=` hint that `Home` and `Original` put in the `/auth` link is
  never read. The route renders `AuthForm` with `userType="white"`, so the
  form always asks for an email (`Navigation.AuthTypeHintIgnored`).
- Sign-up always stores the type `"white"` (`Auth.AuthForm.SignUp`).
- The forgot-password toggle is offered in sign-up mode too.
  `Auth.ResetReachableFromSignUp` shows that back-to-login then returns to
  sign-up, not to login.
- The required-entry check on work experience exists only in
  `bluecollar/WorkExperience.jsx`. The pages render the résumé
  `WorkExperienceForm`, which ignores its `required` prop.
- In the résumé builder, step 3 of the build path renders nothing
  (`ResumeBuilder.BuildPastExperience`).
- `BlueCollarProfile`:
  - Its step counter is never read: all five sections are always rendered
    (`BlueCollarProfile.StepNotRead`).
  - Each section's `setFormData` merges into the `formData` of the render
    in which the handler was created, then upserts the row.

## Model

| member | source | states |
|---|---|---|
| Forms.ExperienceSet | src/components/resume/WorkExperienceForm.js:5-9 | setting one field of an experience entry changes that field to the value and keeps the other four |
| Forms.ChangeExperience | src/components/resume/WorkExperienceForm.js:5-9 | only the named field of the entry at the index changes; the list keeps its length and the other keys are kept (the same handler as in `bluecollar/WorkExperience.jsx`, lines 7-11) |
| Forms.AddExperience | src/components/resume/WorkExperienceForm.js:10-24 | a blank entry is appended after the existing ones and the other keys are kept (the same handler as in `bluecollar/WorkExperience.jsx`, lines 13-16) |
| Forms.EducationSet | src/components/bluecollar/EducationForm.jsx:7-11 | setting one field of an education entry changes that field and keeps the other two |
| Forms.Or | src/pages/BlueCollarProfile.js:49-58 | `a \|\| b` is `a` when `a` is truthy and `b` otherwise |
| Forms.Put | src/components/resume/PersonalInfoForm.js:5-7 | `{ ...fd, [k]: v }` maps `k` to `v`, has the old keys plus `k`, and keeps every other key's value |
| Forms.Spread | src/pages/BlueCollarProfile.js:70-71 | `{ ...a, ...b }` has the keys of both; a key of `b` takes `b`'s value, any other key keeps `a`'s |
| Lists.RemoveAt | src/pages/CompanyProfile.js:34-38 | removing index `i` gives a list one shorter: entries before `i` keep their index, and later ones move down by one |
| Lists.FilterOutIndexIsRemoveAt | src/components/resume/WorkExperienceForm.js:25-28 | `filter((_, i) => i !== index)` equals removing the entry at `index` |
| Lists.FilterOutMissingIndex | src/components/resume/WorkExperienceForm.js:25-28 | filtering out an index that no remaining element carries keeps the list unchanged |
| Lists.AppendThenRemoveLast | src/components/resume/WorkExperienceForm.js:10-28 | appending an entry and then removing the last one restores the list |
| App.UserType | src/App.js:20 | the type is absent without a session; when present, it is the session's `user_metadata.type` |
| App.MatchRoute | src/App.js:28-67 | a declared route matches exactly its own path; the catch-all matches iff no declared path equals the requested path |
| App.ProtectedRouteRendersIff | src/App.js:37-64 | a guarded route renders its page iff a session with the required type exists; otherwise it navigates to that route's own fallback target |
| App.RouteNavigatesIff | src/App.js:30-67 | a route's element (`RouteElement`) navigates iff the route is the catch-all or is guarded and the session lacks its role |
| App.FallbackRelativeOnlyForJobSeekers | src/App.js:37-64 | a route's fallback target (`FallbackTarget`) is absolute iff it is not a job-seeker route, and then it is `/` |
| App.UnguardedRoutesIgnoreSession | src/App.js:30-67 | unguarded routes give the same element for every session; only the catch-all navigates, and it goes to `/` |
| App.VisibleLinks | src/App.js:104-110 | a link is kept iff it is in the list and shown (`LinkShown`: a session exists and the type is among the link's roles); nothing is kept without a session |
| App.VisibleLinksAppend | src/App.js:104-110 | filtering a concatenation filters each part |
| App.VisibleLinksUnrolled | src/App.js:84-110 | the filtered nav list is the five links, each kept or dropped by its own role test |
| App.NavBar | src/App.js:102-125 | the login link shows iff there is no session; the email and the logout button show iff there is one; the links are exactly the visible ones |
| App.NavBarLinksUnrolled | src/App.js:84-110 | with a session, the nav bar's links are the five links filtered by the session's type |
| App.WhiteLinks | src/App.js:84-110 | a white-collar session sees Home and the white-collar profile link, in that order |
| App.BlueLinks | src/App.js:84-110 | a blue-collar session sees Home and the blue-collar profile link, in that order |
| App.CompanyLinks | src/App.js:84-110 | a company session sees Home, Dashboard and Company Profile, in that order |
| App.NoLinksForOtherTypes | src/App.js:84-110 | a session with any other type, or with no type, sees no links (not even Home) |
| App.LinksPerRole | src/App.js:84-110 | the exact list of links for each of the four kinds of session type |
| Navigation.ParseTarget | src/App.js:43 | a navigation target splits into a path without `?` and a search part that is empty or starts with `?`, which concatenate back to the target |
| Navigation.ResolveJoinsRelativeTargets | src/App.js:43 | `Resolve` keeps a target that starts with `/`, and appends any other to the route's path after a `/` |
| Navigation.StepRedirects | src/App.js:30-67 | `Step` redirects from every location whose element navigates; of the rendered pages only the landing page moves on, exactly when there is a session, to `/dashboard` |
| Navigation.RunFromSettled | src/App.js:30-67 | `Run` stays at a settled location, and stays put when no redirect is allowed |
| Navigation.LongPathIsUndeclared | src/App.js:28-67 | a path longer than `/company-profile`, the longest declared path, matches only the catch-all |
| Navigation.NavigateToRoot | src/App.js:53-67 | a route whose element is `<Navigate to="/">` sends every location to `/` |
| Navigation.UndeclaredGoesToRoot | src/App.js:67 | the catch-all sends every location to `/` |
| Navigation.RootStep | src/pages/Original.js:13-16 | `/` moves on to `/dashboard` iff there is a session, and stays put otherwise |
| Navigation.FallbackTargetsResolve | src/App.js:43-50 | the relative fallback targets resolve to `/whitecollar/hiteCollarProfile` and `/bluecollar/BlueCollarProfile` |
| Navigation.AuthPathShowsTheForm | src/App.js:34 | `/auth` renders the form for every query and session, and does not redirect |
| Navigation.WhiteCollarFallbackEndsAtRoot | src/App.js:37-46 | without the white role, `/whitecollar` goes to the unmatched `/whitecollar/hiteCollarProfile`, which goes to `/` |
| Navigation.BlueCollarFallbackEndsAtRoot | src/App.js:47-52 | without the blue role, `/bluecollar` goes to the unmatched `/bluecollar/BlueCollarProfile`, which goes to `/` |
| Navigation.NonCompanyRedirectLoop | src/pages/Original.js:13-16 | with a non-company session, `/` goes to `/dashboard` and `/dashboard` goes back to `/` |
| Navigation.NonCompanyNeverSettles | src/pages/Original.js:13-16 | starting from `/` or `/dashboard` with such a session, the location alternates forever and never settles |
| Navigation.NoSessionSettles | src/App.js:30-67 | without a session every location settles within three steps, and a guarded or unmatched one settles on `/` |
| Navigation.CompanyRootRun | src/pages/Original.js:13-16 | a company session at `/` reaches `/dashboard` in one step and stays there |
| Navigation.CompanyFromJobSeekerRoute | src/App.js:37-52 | a company session at a job-seeker route reaches `/dashboard` within four steps |
| Navigation.CompanyFromLandingOrUndeclared | src/App.js:30-67 | a company session at `/` or at an unmatched path reaches `/dashboard` within four steps |
| Navigation.CompanySessionSettles | src/App.js:30-67 | a company session settles within four steps from any location, and where it ends is given per route |
| Navigation.OtherSessionSettlesOrLoops | src/App.js:30-67 | with a non-company session, a location is settled iff it is not `/` and its route renders; any other location is in the `/`–`/dashboard` loop within three steps |
| Navigation.RenderedPathSettles | src/App.js:30-64 | navigating to a path whose route renders for the session stays there |
| Navigation.LoginLandsOnItsPage | src/components/AuthForm.jsx:47-51 | the page a successful login navigates to renders for the user who logged in |
| Navigation.HomeTargetParses | src/pages/Home.js:16-18 | the target `Home` navigates to is `/auth` with the query `?type=<choice>` |
| Navigation.CompanyTargetParses | src/pages/Original.js:18-20 | the company choice on the landing page navigates to `/auth?type=company` |
| Navigation.AuthTypeHintIgnored | src/App.js:34 | the `/auth` route renders the form for every query and session, and the form asks for an email whatever was chosen |
| Original.Render | src/pages/Original.js:13-16 | every session is redirected to `/dashboard` and nothing is rendered; without a session the landing page is rendered |
| Original.SelectType | src/pages/Original.js:18-24 | the company choice navigates to `/auth?type=company`, the job-seeker choice to `/home`; any other value does nothing |
| Home.Render | src/pages/Home.js:14 | the page is an empty `<div>`, with no redirect, iff there is a session; without one it shows the two buttons |
| Home.SelectType | src/pages/Home.js:16-18 | the target is `/auth?type=` followed by the chosen type, verbatim |
| Auth.EffectiveUserType | src/components/AuthForm.jsx:7 | the `userType` prop defaults to `"white"` when it is absent |
| Auth.SubmitHandler | src/components/AuthForm.jsx:111-117 | the form submits to reset when resetting, else to sign-up in sign-up mode, else to login; each iff its condition holds |
| Auth.HeaderKey | src/components/AuthForm.jsx:103-107 | the header is `reset_password` iff resetting, `sign_up` iff signing up and not resetting, and `login` otherwise |
| Auth.ButtonKey | src/components/AuthForm.jsx:171-175 | the button is `send_reset_link` iff resetting, `sign_up` iff signing up and not resetting, and `login` otherwise |
| Auth.LabelsFollowHandler | src/components/AuthForm.jsx:103-175 | two modes share a header, and share a button label, iff they submit to the same handler |
| Auth.IdentifierKindOf | src/components/AuthForm.jsx:18-122 | the form asks for a phone number iff the user is blue-collar and not signing up |
| Auth.IdentifierInputFollowsMode | src/components/AuthForm.jsx:120-122 | the identifier input has type `text` iff the user is blue-collar and not signing up, and type `email` otherwise |
| Auth.IdentifierIgnoresResetting | src/components/AuthForm.jsx:18-122 | the reset flag has no effect on which identifier is asked for |
| Auth.OfferedToggles | src/components/AuthForm.jsx:187-229 | forgot-password and the sign-up switch are offered iff not resetting; back-to-login iff resetting |
| Auth.ModeAfter | src/components/AuthForm.jsx:187-229 | forgot-password sets resetting, back-to-login clears it, and the switch flips sign-up; the other flag is kept in each case |
| Auth.PasswordFollowsToggles | src/components/AuthForm.jsx:136-229 | the password field (`PasswordShown`) shows iff the form does not submit to reset; forgot-password hides it, back-to-login shows it, and the sign-up switch keeps it as it was |
| Auth.ForgotThenBackRestores | src/components/AuthForm.jsx:187-210 | forgot-password followed by back-to-login returns to the mode it started from |
| Auth.ResetReachableFromSignUp | src/components/AuthForm.jsx:187-210 | from sign-up mode, forgot-password leads to reset, and back-to-login then leads to sign-up again |
| Auth.SwitchTwiceRestores | src/components/AuthForm.jsx:211-229 | switching between login and sign-up twice returns to the starting mode |
| Auth.LandingPath | src/components/AuthForm.jsx:47-51 | a login lands on `/whitecollar`, `/bluecollar` or `/dashboard` iff the type is white, blue or company; any other type lands on `/home` |
| Auth.LoginFlow | src/components/AuthForm.jsx:21-55 | a blue-collar login without a phone match fails with `invalid_phone` and no sign-in; otherwise sign-in uses the typed email or the looked-up one; it navigates iff sign-in succeeds, to the landing path of the returned type; a sign-in error becomes the form's error |
| Auth.AuthForm.constructor | src/components/AuthForm.jsx:7-16 | empty fields and messages, login mode, and the effective user type |
| Auth.AuthForm.EnterIdentifier | src/components/AuthForm.jsx:120-134 | typing sets the identifier and changes nothing else |
| Auth.AuthForm.EnterPassword | src/components/AuthForm.jsx:136-150 | typing sets the password and changes nothing else |
| Auth.AuthForm.ClickToggle | src/components/AuthForm.jsx:187-229 | an offered toggle moves to the mode `ModeAfter` gives; only the sign-up switch clears the error and message; the fields are kept |
| Auth.AuthForm.Login | src/components/AuthForm.jsx:21-55 | the error and the navigation target are those of the login flow on the typed identifier; the message is cleared; the fields and mode are kept |
| Auth.AuthForm.SignUp | src/components/AuthForm.jsx:58-75 | sends the typed email and password with type `"white"`; on success clears the error and asks the user to confirm their email, on failure shows the reply's message |
| Auth.AuthForm.ResetPassword | src/components/AuthForm.jsx:78-90 | requests a reset for the typed identifier; on success clears the error and says the reset was sent, on failure shows the reply's message |
| Auth.AuthForm.Submit | src/components/AuthForm.jsx:21-117 | runs exactly the handler the mode selects: login gives the login flow's error and target and clears the message; sign-up sends the typed email and password with type `"white"` and shows the confirmation message or the reply's error; reset asks for a reset of the typed identifier and shows the sent message or the reply's error; only login navigates, only sign-up sends a sign-up request, only reset sends a reset |
| ProfilePage.TableName | src/pages/ProfilePage.jsx:34-44 | blue users read `blue_collar_profiles`, white users read `white_collar_profiles`, and any other type reads nothing (each iff) |
| ProfilePage.LoadedProfile | src/pages/ProfilePage.jsx:54 | the shown profile is the row with `type` set to the user's type and every other column kept |
| ProfilePage.Render | src/pages/ProfilePage.jsx:65-112 | loading shows the spinner; otherwise an error shows the error; otherwise a missing profile shows the empty state, and a present one shows that profile (each iff) |
| ProfilePage.EditRoute | src/pages/ProfilePage.jsx:114-119 | the edit button goes to the blue-collar editor iff the profile's type is `"blue"`, else to the white-collar one |
| ProfilePage.EditRouteFollowsUserType | src/pages/ProfilePage.jsx:54-119 | for a loaded profile, the edit target follows the user's type |
| ProfilePage.ProfilePage.constructor | src/pages/ProfilePage.jsx:10-12 | no profile, loading, no error |
| ProfilePage.ProfilePage.FetchProfile | src/pages/ProfilePage.jsx:15-63 | no user navigates to `/auth`; a user of another type gets `invalid_user_type` and no query; otherwise the query targets the user's table and id, and its reply sets either the error or the profile; loading always ends |
| ProfilePage.MountThenRender | src/pages/ProfilePage.jsx:15-112 | after the fetch the page is never loading; it shows the invalid-type error, or the loaded profile, as the replies decide |
| WhiteCollarProfile.InitialFormData | src/pages/WhiteCollarProfile.js:16-40 | the starting form: blank personal fields, one blank experience and one blank education entry, no skills, no résumé |
| WhiteCollarProfile.RenderedSteps | src/pages/WhiteCollarProfile.js:50-131 | step 1 renders personal info with the four fields `fullName`, `email`, `phone`, `location`; steps 2 to 5 render work experience, education, skills and upload, one each; any other step renders nothing |
| WhiteCollarProfile.RenderedStepsDistinct | src/pages/WhiteCollarProfile.js:50-131 | different steps render different components |
| WhiteCollarProfile.WhiteCollarProfile.constructor | src/pages/WhiteCollarProfile.js:14-40 | step 1 with the initial form |
| WhiteCollarProfile.WhiteCollarProfile.NextStep | src/pages/WhiteCollarProfile.js:42 | the step goes up by one and the form is kept |
| WhiteCollarProfile.WhiteCollarProfile.PrevStep | src/pages/WhiteCollarProfile.js:43 | the step goes down by one and the form is kept |
| WhiteCollarProfile.WhiteCollarProfile.SetFormData | src/pages/WhiteCollarProfile.js:54 | the form is replaced and the step is kept |
| WhiteCollarProfile.WhiteCollarProfile.ClickNext | src/pages/WhiteCollarProfile.js:51-129 | next advances steps 1–4 and alerts (without moving) on step 5, iff step 5; the step stays within 1–5 |
| WhiteCollarProfile.WhiteCollarProfile.ClickBack | src/pages/WhiteCollarProfile.js:67-129 | back, rendered on steps 2–5 only (`BackOffered`), goes one step down, within 1–5, and keeps the form |
| WhiteCollarProfile.BackThenNext | src/pages/WhiteCollarProfile.js:42-43 | back then next returns to the same step with the same form |
| BlueCollarProfile.InitialFormData | src/pages/BlueCollarProfile.js:16-29 | the starting form: the eight keys, blank strings, one blank experience and one blank education entry, no skills |
| BlueCollarProfile.FormFromRow | src/pages/BlueCollarProfile.js:48-59 | a loaded row gives a form with exactly the eight form keys |
| BlueCollarProfile.RowFromForm | src/pages/BlueCollarProfile.js:74-86 | the upserted row has exactly the id and the eight columns |
| BlueCollarProfile.LoadColumn | src/pages/BlueCollarProfile.js:49-58 | each form key is its column's value, or the initial value when the column is falsy |
| BlueCollarProfile.SaveColumn | src/pages/BlueCollarProfile.js:74-86 | the row's id is the user's id, and each column holds its form key's value |
| BlueCollarProfile.SaveThenLoad | src/pages/BlueCollarProfile.js:48-86 | loading the row saved from a well-formed form (the eight keys, with strings, entry lists and skills of the right kinds, empty strings allowed) gives back that form |
| BlueCollarProfile.EmptyRowLoadsInitialForm | src/pages/BlueCollarProfile.js:48-59 | a row holding only the id loads as the initial form |
| BlueCollarProfile.ResumeFileNotSaved | src/pages/BlueCollarProfile.js:74-86 | the file the upload step puts under `resume` never reaches the saved row |
| BlueCollarProfile.FullSectionMergeIsSection | src/pages/BlueCollarProfile.js:70-71 | merging a section that carries every key of the rendered form gives that section |
| BlueCollarProfile.Render | src/pages/BlueCollarProfile.js:90-167 | loading shows the loading text iff loading; otherwise all five sections are shown, in order, whatever the step |
| BlueCollarProfile.BlueCollarProfile.constructor | src/pages/BlueCollarProfile.js:14-31 | no user, loading, the initial form, step 1 |
| BlueCollarProfile.BlueCollarProfile.LoadUserAndProfile | src/pages/BlueCollarProfile.js:34-65 | without a user nothing changes and loading never ends; with one the user is stored and loading ends; a found row replaces the form by the loaded one |
| BlueCollarProfile.BlueCollarProfile.SaveSection | src/pages/BlueCollarProfile.js:67-88 | without a user nothing happens; otherwise the form becomes the rendered form merged with the section, and the row saved from it is upserted |
| BlueCollarProfile.BlueCollarProfile.SectionSetFormData | src/pages/BlueCollarProfile.js:98-162 | a section's `setFormData` merges into the form of the current render and saves; without a user it only sets the form |
| BlueCollarProfile.BlueCollarProfile.SectionNext | src/pages/BlueCollarProfile.js:98-163 | next in sections 1–4 sets the step to the next section; section 5 alerts instead (iff) |
| BlueCollarProfile.BlueCollarProfile.SectionBack | src/pages/BlueCollarProfile.js:113-164 | back in sections 2–5 sets the step to the previous section |
| BlueCollarProfile.StepNotRead | src/pages/BlueCollarProfile.js:90-167 | pressing next leaves the rendered page unchanged |
| BlueCollarProfile.EditSaveReload | src/pages/BlueCollarProfile.js:48-88 | a full well-formed edit is saved, and reloading the saved row gives it back |
| ResumeBuilder.InitialFormData | src/pages/ResumeBuilder.js:17-32 | the starting form: blank personal fields, one blank experience entry, no résumé |
| ResumeBuilder.ScreenOf | src/pages/ResumeBuilder.js:59-94 | the start choice iff no mode; personal info iff building at step 1; work experience iff building at step 2; the upload step iff uploading at step 1; nothing otherwise |
| ResumeBuilder.ReachableScreens | src/pages/ResumeBuilder.js:59-94 | of the reachable states, only build step 3 shows no step |
| ResumeBuilder.ResumeBuilder.constructor | src/pages/ResumeBuilder.js:13-32 | no mode, step 1, the initial form |
| ResumeBuilder.ResumeBuilder.SelectMode | src/components/resume/StartChoiceStep.js:9-12 | choosing sets the mode and keeps the step and form |
| ResumeBuilder.ResumeBuilder.NextStep | src/pages/ResumeBuilder.js:35 | the step goes up by one; nothing else changes |
| ResumeBuilder.ResumeBuilder.PrevStep | src/pages/ResumeBuilder.js:36 | the step goes down by one; nothing else changes |
| ResumeBuilder.ResumeBuilder.Reset | src/pages/ResumeBuilder.js:37-56 | back to no mode, step 1 and the initial form |
| ResumeBuilder.ResumeBuilder.SetFormData | src/pages/ResumeBuilder.js:72 | the form is replaced; mode and step are kept |
| ResumeBuilder.ResumeBuilder.ClickNext | src/pages/ResumeBuilder.js:69-94 | on a shown step whose next button is enabled (on the upload step, only once a file is stored, as src/components/resume/UploadResumeStep.js:27 has it), next alerts iff uploading, and otherwise advances; the form and mode are kept |
| ResumeBuilder.UploadStartsWithNextDisabled | src/components/resume/UploadResumeStep.js:27 | with the builder's initial form, where `uploadedResume` is `null`, the upload step's next button is disabled |
| ResumeBuilder.ResumeBuilder.ClickBack | src/pages/ResumeBuilder.js:77-94 | back from build step 2 goes to step 1; back from the upload step resets everything |
| ResumeBuilder.ResetIsFresh | src/pages/ResumeBuilder.js:37-56 | a reset builder equals a newly mounted one and shows the start choice |
| ResumeBuilder.BuildPastExperience | src/pages/ResumeBuilder.js:69-84 | choosing build and pressing next twice leads to a screen with no step |
| CompanyProfile.JobSet | src/pages/CompanyProfile.js:20-25 | setting one field of a job changes that field and keeps the other five |
| CompanyProfile.InitialCompanyData | src/pages/CompanyProfile.js:4-9 | the company form starts with its fields blank |
| CompanyProfile.JobInputs | src/pages/CompanyProfile.js:108-175 | a job's card shows the education input iff its type is `"white"`; title, type, skills, experience and notes always, title first and notes last |
| CompanyProfile.SelectDecidesEducation | src/pages/CompanyProfile.js:121-164 | choosing white in the select shows the education input; choosing blue hides it |
| CompanyProfile.CompanyProfile.constructor | src/pages/CompanyProfile.js:4-13 | blank company data and one blank job |
| CompanyProfile.CompanyProfile.HandleCompanyChange | src/pages/CompanyProfile.js:15-18 | the named company field takes the value; other fields and the jobs are kept |
| CompanyProfile.CompanyProfile.HandleJobChange | src/pages/CompanyProfile.js:20-25 | only the field of the job at the index changes; the other jobs and the company data are kept |
| CompanyProfile.CompanyProfile.AddJob | src/pages/CompanyProfile.js:27-32 | a blank job is appended after the existing ones |
| CompanyProfile.CompanyProfile.RemoveJob | src/pages/CompanyProfile.js:34-38 | the job at the index is removed and the others keep their order |
| CompanyProfile.CompanyProfile.ClickRemove | src/pages/CompanyProfile.js:177-183 | the remove button (shown only while there are two or more jobs, `RemoveOffered`) removes that job, and at least one job remains |
| CompanyProfile.CompanyProfile.Submit | src/pages/CompanyProfile.js:40-45 | submitting logs the company data and the jobs as they are, and changes nothing |
| CompanyProfile.JobsAfter | src/pages/CompanyProfile.js:20-38 | one action on the jobs: a job field edit changes that field of that job only, add appends a blank job, and remove (offered, by `Offered`, only with two or more jobs) drops that job and leaves at least one; an action whose control is not shown changes nothing |
| CompanyProfile.CompanyAfter | src/pages/CompanyProfile.js:15-18 | a company field edit sets that field and keeps the others; any other action leaves the company data as it was |
| CompanyProfile.ActionsKeepAJob | src/pages/CompanyProfile.js:11-38 | for every sequence of user actions, a job list that starts non-empty stays non-empty |
| CompanyProfile.EditsKeepAJob | src/pages/CompanyProfile.js:11-38 | running any sequence of actions through the handlers leaves exactly the jobs and company data the actions determine, and at least one job |
| CompanyProfile.AddThenRemoveLast | src/pages/CompanyProfile.js:27-38 | adding a job and removing it restores the jobs and the company data |
| ResumeWorkExperienceForm.HandleRemoveExperience | src/components/resume/WorkExperienceForm.js:25-28 | the entry at the index is removed and the others keep their order |
| ResumeWorkExperienceForm.OfferedRemoveKeepsAnEntry | src/components/resume/WorkExperienceForm.js:68-76 | the remove button shows on every entry iff there is more than one (`RemoveOffered`), so removing through it leaves at least one entry |
| ResumeWorkExperienceForm.AddThenRemoveLast | src/components/resume/WorkExperienceForm.js:10-28 | adding an entry and removing the last one restores the list |
| BlueCollarWorkExperience.SomeComplete | src/components/bluecollar/WorkExperience.jsx:19 | true iff some entry is `Complete`, that is, has both a non-empty job title and a non-empty company |
| BlueCollarWorkExperience.HandleSubmit | src/components/bluecollar/WorkExperience.jsx:18-24 | submit warns iff experience is required and no entry is complete; otherwise it advances |
| BlueCollarWorkExperience.SubmitIgnoresDatesAndDescription | src/components/bluecollar/WorkExperience.jsx:18-24 | the outcome depends only on titles and companies |
| BlueCollarWorkExperience.AddKeepsSubmitOutcome | src/components/bluecollar/WorkExperience.jsx:13-24 | adding a blank entry never changes whether submit warns |
| BlueCollarEducationForm.HandleChange | src/components/bluecollar/EducationForm.jsx:7-11 | only the field of the entry at the index changes |
| BlueCollarEducationForm.AddEducation | src/components/bluecollar/EducationForm.jsx:13-15 | a blank entry is appended |
| BlueCollarEducationForm.ApplyEdit | src/components/bluecollar/EducationForm.jsx:7-15 | a change keeps the number of entries, and an add grows it by one |
| BlueCollarEducationForm.EditsNeverShorten | src/components/bluecollar/EducationForm.jsx:7-15 | a sequence of edits ends with the starting entries plus one per add |
| BlueCollarSkillsStep.RemoveAll | src/components/bluecollar/SkillsStep.jsx:9 | `filter(s => s !== x)` drops every `x` and keeps every other skill |
| BlueCollarSkillsStep.RemoveAllAbsent | src/components/bluecollar/SkillsStep.jsx:9 | filtering out a skill that is not there changes nothing |
| BlueCollarSkillsStep.RemoveAllAppend | src/components/bluecollar/SkillsStep.jsx:9-10 | filtering a concatenation filters each part, so filtering out a skill just appended drops it again |
| BlueCollarSkillsStep.RemoveAllNoDuplicates | src/components/bluecollar/SkillsStep.jsx:9 | filtering keeps a list free of duplicates |
| BlueCollarSkillsStep.Toggle | src/components/bluecollar/SkillsStep.jsx:7-11 | toggling flips that skill's membership and keeps every other skill's |
| BlueCollarSkillsStep.ToggleTwice | src/components/bluecollar/SkillsStep.jsx:7-11 | toggling an unchecked skill twice restores the list |
| BlueCollarSkillsStep.ToggleThenRemove | src/components/bluecollar/SkillsStep.jsx:7-11 | after a toggle, filtering out the skill gives the same list as filtering it out before |
| BlueCollarSkillsStep.ToggleNoDuplicates | src/components/bluecollar/SkillsStep.jsx:7-11 | toggling keeps the skills free of duplicates |
| BlueCollarSkillsStep.HandleSkillToggle | src/components/bluecollar/SkillsStep.jsx:7-11 | the form's skills become the toggled list and other keys are kept |
| BlueCollarSkillsStep.SetOtherSkill | src/components/bluecollar/SkillsStep.jsx:42 | the other-skill text is set and other keys are kept |
| BlueCollarUploadResume.UploadResume.constructor | src/components/bluecollar/UploadResume.jsx:6 | no error |
| BlueCollarUploadResume.UploadResume.HandleFileChange | src/components/bluecollar/UploadResume.jsx:8-16 | a non-PDF sets `upload_pdf_only` and leaves the form; a PDF, or no file, clears the error and sets `resume` to the file or to `undefined` |
| BlueCollarUploadResume.UploadLeavesResumeUrl | src/components/bluecollar/UploadResume.jsx:8-16 | choosing a file never changes `resume_url`, the only résumé column that is saved |
| ResumeUploadResumeStep.NextDisabled | src/components/resume/UploadResumeStep.js:27 | next is enabled once a file is stored, and disabled while `uploadedResume` is null, undefined or empty |
| ResumeUploadResumeStep.UploadResumeStep.constructor | src/components/resume/UploadResumeStep.js:5 | no error |
| ResumeUploadResumeStep.UploadResumeStep.HandleFileChange | src/components/resume/UploadResumeStep.js:6-17 | no file changes nothing; a type outside PDF and Word sets `invalid_file` and leaves the form; an accepted one clears the error and stores the file |
| ResumeUploadResumeStep.ValidThenInvalid | src/components/resume/UploadResumeStep.js:6-27 | after an accepted file and then a rejected one, the first file stays, the error shows, and next stays enabled |
| WhiteCollarPersonalInfo.RenderedInputs | src/components/whitecollar/PersonalInfo.jsx:16-67 | every rendered input is required and is a known field listed in `fields` |
| WhiteCollarPersonalInfo.ShownIffListed | src/components/whitecollar/PersonalInfo.jsx:16-67 | a known field is rendered iff it is listed in `fields` |
| WhiteCollarPersonalInfo.HandleChange | src/components/whitecollar/PersonalInfo.jsx:4-7 | typing into a rendered input sets its key, which is a listed field, and keeps the others |
| WhiteCollarPersonalInfo.HandleChangeIdempotent | src/components/whitecollar/PersonalInfo.jsx:4-7 | the same change twice equals it once |
| ResumePersonalInfoForm.HandleChange | src/components/resume/PersonalInfoForm.js:5-7 | typing into an input sets that input's key, adds it to the keys and keeps the others |
| ResumePersonalInfoForm.HandleChangeIdempotent | src/components/resume/PersonalInfoForm.js:5-7 | the same change twice equals it once |
| ResumePersonalInfoForm.ChangesCommute | src/components/resume/PersonalInfoForm.js:5-7 | changes to two different inputs commute |
| BlueCollarPersonalInfo.KeyOf | src/components/bluecollar/PersonalInfo.jsx:14-28 | each input writes one of `fullName`, `phone`, `location` |
| BlueCollarPersonalInfo.KeysDistinct | src/components/bluecollar/PersonalInfo.jsx:14-28 | different inputs write different keys |
| BlueCollarPersonalInfo.HandleInput | src/components/bluecollar/PersonalInfo.jsx:14-28 | an input sets its key and keeps every other key, the other inputs' included |
| BlueCollarPersonalInfo.InputsCommute | src/components/bluecollar/PersonalInfo.jsx:14-28 | edits of two different inputs commute |

## Left out

- The session subscription in `src/useSession.js` is not modelled; the session is a parameter.
- `useSession` starts at `null` and sets the session only when `getSession` resolves (`src/useSession.js`, lines 5-9). The model does not capture this first render without a session:
  - `App` first renders its guarded routes with no session, so a signed-in white user who opens `/whitecollar` directly is already sent through `hiteCollarProfile` to `/` before the session arrives.
  - `Original` uses the same hook, so the `/`–`/dashboard` loop of a non-company session runs one load at a time and shows the chooser briefly on each pass.
  - `App.ProtectedRouteRendersIff`, `Navigation.RenderedPathSettles` and `Navigation.OtherSessionSettlesOrLoops` describe the routes once the session has loaded.
- Network calls to the backend (auth, tables, storage) are not modelled. Their replies are parameters, and a thrown exception is a failed reply.
  - `ProfilePage.ProfilePage.FetchProfile` and `BlueCollarProfile.BlueCollarProfile.LoadUserAndProfile` take one reply each. The order of asynchronous updates and unmounting during a request are not modelled.
  - The result of `saveSection`'s upsert, which is only logged, is not modelled.
- Translation with `t()` is not modelled: a text is represented by its translation key. `LanguageSelector` is not part of this model.
- `alert`, `console.log` and styling are not modelled. An alert is a boolean result; a log is a returned value.
- The browser's check of `required` inputs before a form submits is not modelled. `WhiteCollarPersonalInfo`'s `handleSubmit` only calls `onNext`, which the page classes' `ClickNext` models.
- App.MatchRoute: the router's matching is modelled as exact string equality. React Router matches paths case-insensitively and accepts a trailing slash, so `/WhiteCollar` or `/dashboard/` reach a declared route in the application but the catch-all in the model. `Navigation.NoSessionSettles`, `Navigation.CompanyFromLandingOrUndeclared`, `Navigation.CompanySessionSettles` and `Navigation.OtherSessionSettlesOrLoops` therefore hold only for paths spelled exactly as declared.
- Relative redirect targets are resolved against the matched route's path. `Navigation.Run` follows at most a given number of redirects.
- `EmployerDashboard`, `ResumeReview` and the texts of `StartChoiceStep` are not part of this model. Choosing a mode is `ResumeBuilder.ResumeBuilder.SelectMode`.
- The handlers' shallow copies are not modelled: a copied entry list still shares its entry objects with the old state, but the model treats every entry as a value.
- The next and back buttons of the step components are not modelled in those components. They call the page's `onNext` and `onBack`, which the page classes model (`ClickNext`, `ClickBack`, `SectionNext`, `SectionBack`).
- `BlueCollarProfile.RowFromForm`: a key whose value is `undefined` is sent as-is. JSON encoding would drop that key instead, which the model does not capture.
- `BlueCollarProfile.BlueCollarProfile.SectionSetFormData`: the form it reads is the one of the last render. Several section updates within one render are not modelled.
- File contents and file sizes are not modelled; a file is its name and MIME type.
