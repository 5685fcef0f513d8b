# Role-based dashboard app: verified model of its state-bearing core

This project models, in Dafny, the four pieces of a small React front end that carry logic:

- **Notification queue** (`src/components/ui/alert/AlertContext.tsx`). The alert provider holds an
  ordered list of alerts. `showAlert` appends one alert; the duration defaults to 2000 ms.
  The four severity wrappers forward to `showAlert` with a fixed type. `removeAlert` filters the
  list by id. The provider renders the list in order, each alert shifted down by 10 px per position.
  Module `Alerts`: a class `AlertProvider` with a `seq<AlertItem>` field; its methods assign the
  append and filter expressions. The pure functions `Without` and `Layout` carry the properties.
- **Session/role store** (`src/contexts/AuthContext.tsx`). The store holds `user` and `loading`.
  `fetchUserRole` falls back to the role `user` when the role query errs or finds no row.
  `loadUser` publishes the session's user, or null, and clears `loading`.
  `signIn` and `signOut` change `user` only when the provider accepts the call; otherwise they throw.
  Module `Auth`: a class `AuthProvider` with the two fields. Its methods are proved equal to the
  step functions `LoadUser`, `SignIn` and `SignOut`. `Run` folds those steps over a sequence of
  events, and lemmas over `Run` state the store's lifecycle.
- **Role dispatch** (`src/pages/Dashboard.tsx`). A total function from `(loading, user)` to the
  loading view, a redirect to `/login`, or one of the three role dashboards (module `Dashboard`).
- **Button class composition** (`src/components/ui/button/Button.tsx`). Pure functions from props to
  the class string, the disabled flag, the content and the icons. They use the color, variant and
  size tables, the `customClassName` override and JavaScript's `trim()` (module `Buttons`).

The authentication provider's calls (`signInWithPassword`, `signOut`, the `user_roles` query and the
session handed to `loadUser`) are inputs to the operations that await them. Each input is a record
with the data and error fields the provider returns. An error the source throws becomes the
returned `thrown: Option<ProviderError>`. The random alert id is a parameter of `showAlert`, and
ids are not assumed unique.

Three behaviours of the code shape the model:

- A role is any string. The code casts the stored value (`data.role as UserRole`) without checking
  it, so the dashboard's `default` branch is reachable. It is not a closed enumeration.
- Every `loadUser` result is applied when it completes, with no version stamp. The last result
  applied wins (`Auth.LastLoadWins`), not the result of the most recent session event.
- Alert ids are not guaranteed unique. Dismissing an id removes every alert carrying it
  (`Alerts.RemoveTakesEveryHolder`).

Two tables in `Buttons` are written in a compact form, because long string literals are too costly
for the verifier. Both produce exactly the source's strings:

- The color table is one pattern in the color's name, for example `"bg-" + n + "-600 dark:bg-" + n + ...`.
- The base class string is its twelve class names joined by single spaces.

## Model

| member | source | states |
|---|---|---|
| Alerts.NewAlert | src/components/ui/alert/AlertContext.tsx:41-44 | the new item has exactly the given id, type, message and icon; its duration is the given one, or 2000 when none is given |
| Alerts.Without | src/components/ui/alert/AlertContext.tsx:38 | an item is kept exactly when it was queued and its id differs; the list never grows |
| Alerts.WithoutConcat | src/components/ui/alert/AlertContext.tsx:38 | removal distributes over concatenation, so the kept items stay in their relative order |
| Alerts.WithoutAbsent | src/components/ui/alert/AlertContext.tsx:38 | removing an id no item carries leaves the list unchanged |
| Alerts.WithoutIdempotent | src/components/ui/alert/AlertContext.tsx:38 | removing the same id twice equals removing it once |
| Alerts.WithoutCommutes | src/components/ui/alert/AlertContext.tsx:38 | removals by two ids commute |
| Alerts.WithoutCount | src/components/ui/alert/AlertContext.tsx:38 | removal shortens the list by exactly the number of items carrying the id |
| Alerts.RemoveTakesEveryHolder | src/components/ui/alert/AlertContext.tsx:37-39 | when two alerts share an id, dismissing it removes both |
| Alerts.ShowThenRemove | src/components/ui/alert/AlertContext.tsx:37-47 | showing an alert with an id not in the queue, then removing that id, restores the queue |
| Alerts.Layout | src/components/ui/alert/AlertContext.tsx:81-85 | one slot per alert in queue order, keyed by its id; the slot at position i sits 10 px times i from the top, so offsets strictly increase from 0 |
| Alerts.LayoutAppend | src/components/ui/alert/AlertContext.tsx:81-85 | showing an alert adds one slot at the bottom, at 10 px times the old length, and moves no existing slot |
| Alerts.UseAlert | src/components/ui/alert/AlertContext.tsx:22-28 | outside the provider the hook fails with "useAlert must be used within an AlertProvider"; inside it returns the provider |
| Alerts.AlertProvider.constructor | src/components/ui/alert/AlertContext.tsx:35 | the queue starts empty |
| Alerts.AlertProvider.RemoveAlert | src/components/ui/alert/AlertContext.tsx:37-39 | the new queue is the old queue without the id's items |
| Alerts.AlertProvider.ShowAlert | src/components/ui/alert/AlertContext.tsx:41-47 | the new queue is the old one with exactly one new item appended |
| Alerts.AlertProvider.ShowSuccess | src/components/ui/alert/AlertContext.tsx:49-54 | behaves as ShowAlert with type success |
| Alerts.AlertProvider.ShowError | src/components/ui/alert/AlertContext.tsx:56-61 | behaves as ShowAlert with type error |
| Alerts.AlertProvider.ShowWarning | src/components/ui/alert/AlertContext.tsx:63-68 | behaves as ShowAlert with type warning |
| Alerts.AlertProvider.ShowInfo | src/components/ui/alert/AlertContext.tsx:70-75 | behaves as ShowAlert with type info |
| Alerts.AlertProvider.Rendered | src/components/ui/alert/AlertContext.tsx:80-96 | display order is queue order; the alert at position i is shifted by i*10 px |
| Auth.FetchUserRole | src/contexts/AuthContext.tsx:24-37 | a query error or a missing row yields `user`; otherwise the stored role |
| Auth.NoEscalation | src/contexts/AuthContext.tsx:31-36 | any role other than `user` comes from an error-free query that returned that very row |
| Auth.ToUser | src/contexts/AuthContext.tsx:42-46 | the published user has the session user's id, the email or '' when it is missing, and the resolved role |
| Auth.SessionUser | src/contexts/AuthContext.tsx:40-49 | a user is published exactly when the session has a user, and it is built from that user and the fetched role |
| Auth.LoadUser | src/contexts/AuthContext.tsx:39-51 | after a load, loading is false and the user is the session's user or null |
| Auth.SignIn | src/contexts/AuthContext.tsx:69-87 | a provider error is thrown and changes nothing; otherwise a session user is published, and without one the user is unchanged; loading is untouched |
| Auth.SignOut | src/contexts/AuthContext.tsx:89-95 | a provider error is thrown and changes nothing; otherwise the user becomes null |
| Auth.LoadingUntilFirstLoad | src/contexts/AuthContext.tsx:50 | after any events, loading holds exactly when it held before and no load happened |
| Auth.InitialLoading | src/contexts/AuthContext.tsx:21-22 | from the initial state (no user, loading), loading holds exactly until the first load |
| Auth.LoadingNeverReturns | src/contexts/AuthContext.tsx:50 | once loading is false, no sequence of events sets it back to true |
| Auth.SignedOutStaysOut | src/contexts/AuthContext.tsx:89-95 | after a successful sign-out the user stays null until a load with a session user or an accepted sign-in with one |
| Auth.LastLoadWins | src/contexts/AuthContext.tsx:53-64 | the state after any history ending in a load is that load's result; earlier results are overwritten |
| Auth.UseAuth | src/contexts/AuthContext.tsx:8-14 | outside the provider the hook fails with "useAuth must be used within an AuthProvider"; inside it returns the provider |
| Auth.AuthProvider.constructor | src/contexts/AuthContext.tsx:21-22 | the store starts with no user and loading true |
| Auth.AuthProvider.LoadUserFrom | src/contexts/AuthContext.tsx:39-51 | the new state is LoadUser of the old one |
| Auth.AuthProvider.SignInWith | src/contexts/AuthContext.tsx:69-87 | the new state and the thrown error are those of SignIn |
| Auth.AuthProvider.SignOutWith | src/contexts/AuthContext.tsx:89-95 | the new state and the thrown error are those of SignOut |
| Dashboard.DashboardView | src/pages/Dashboard.tsx:10-31 | loading gives the loading view; no user redirects to /login; each known role gets its dashboard; any other role redirects to /login |
| Dashboard.DashboardOutcomes | src/pages/Dashboard.tsx:10-31 | each outcome holds if and only if its condition holds, so every state has exactly one outcome; /login is the only redirect target |
| Dashboard.DashboardAfterEvents | src/pages/Dashboard.tsx:10-16 | from the store's initial state, the page shows the loading view exactly until the first load |
| Dashboard.FailedLookupShowsUserDashboard | src/contexts/AuthContext.tsx:31-34 | a signed-in user whose role lookup failed or found no row sees the user dashboard |
| Dashboard.PrivilegedOnlyFromRow | src/pages/Dashboard.tsx:22-26 | after a load, the admin and superadmin dashboards appear only when the role row says so |
| Dashboard.SignedOutRedirects | src/pages/Dashboard.tsx:18-20 | after a successful sign-out (once loaded) the page redirects to /login |
| Buttons.ColorStyles | src/components/ui/button/Button.tsx:20-53 | each color's solid style starts with its 600 background, its outline style starts with a 2 px border in its 600 shade, and both end with the focus ring in the same color |
| Buttons.SizeClass | src/components/ui/button/Button.tsx:64-68 | each size class starts with a horizontal padding class and has no white space at either end |
| Buttons.VariantClass | src/components/ui/button/Button.tsx:55-62 | danger is red solid and success green solid whatever the color; ghost is fixed; primary and secondary take the color's solid style; outline takes its outline style |
| Buttons.WidthClass | src/components/ui/button/Button.tsx:107 | the width class is `w-full` exactly when fullWidth is set, else empty |
| Buttons.TrimStart | src/components/ui/button/Button.tsx:111-113 | the result is a suffix of the input, does not start with ECMAScript white space, and everything removed is white space |
| Buttons.TrimEnd | src/components/ui/button/Button.tsx:111-113 | the result is a prefix of the input, does not end with ECMAScript white space, and everything removed is white space |
| Buttons.Trim | src/components/ui/button/Button.tsx:111-113 | the trimmed string is a contiguous slice of the input, everything outside the slice is white space, and the slice neither starts nor ends with ECMAScript white space |
| Buttons.CustomClassOverrides | src/components/ui/button/Button.tsx:111-112 | with a non-empty customClassName the class is base, size, then the trimmed width and custom class |
| Buttons.MergedClass | src/components/ui/button/Button.tsx:113 | otherwise the class is base, variant, size, then the trimmed width and className |
| Buttons.PlainClassName | src/components/ui/button/Button.tsx:105-113 | without className or customClassName the class is exactly base, variant and size, plus ` w-full` exactly when full width |
| Buttons.CustomClassIgnoresVariant | src/components/ui/button/Button.tsx:109-112 | with a custom class, changing the variant, color or className leaves the class unchanged |
| Buttons.EmptyCustomClassIgnored | src/components/ui/button/Button.tsx:111 | an empty customClassName behaves as none |
| Buttons.Render | src/components/ui/button/Button.tsx:116-148 | disabled exactly when disabled or loading; spinner exactly when loading; each icon only when not loading and given; the content is the label when non-empty, else the children |
| Buttons.CreateButton | src/components/ui/button/Button.tsx:71-77 | returns the given label, the color or indigo, and the variant or primary |
| Buttons.DefaultButton | src/components/ui/button/Button.tsx:79-93 | with no props: primary indigo solid, medium, not full width, enabled, no spinner, no icons |
| Buttons.CreatedButtonRenders | src/components/ui/button/Button.tsx:70-82 | a createButton result spread into a button uses the button's own color and variant defaults |
| Buttons.BaseStart | src/components/ui/button/Button.tsx:94 | the base class string is non-empty and starts with a non-space |

## Left out

- Alert auto-dismiss timers live in the Alert component (`Alert.tsx`), which is not part of this model. The queue only exposes `onClose → removeAlert`, so no timer property is claimed.
- Alert id generation (`Math.random().toString(36).substring(7)`) is left out. The id is a parameter, and uniqueness is not assumed.
- React keys: duplicate ids would give duplicate `key`s. React's behaviour with duplicate keys is not modelled.
- Alert durations are integers. JavaScript numbers are floating point.
- The asynchronous interleaving of `loadUser` calls is left out. These are the calls started by `getSession` and by `onAuthStateChange` (AuthContext.tsx:53-67). Each `loadUser` is one atomic step applied when it completes, and the subscribe/unsubscribe wiring is not modelled. The race between an older and a newer session event is therefore outside the model.
- `src/lib/supabase.ts` (client construction from the environment) and `create-users.js` (account seeding over the network) are I/O plumbing. They are not part of this model.
- `src/components/PageTransition.tsx` is left out: it is UI timing (`setTimeout`, animation frames, effects).
- Left out as static markup, routing or re-exports: the dashboard pages, `MainPage.tsx`, `Layout.tsx`, `ButtonLink.tsx`, `App.tsx`, the `*.examples.tsx` files and the `index.ts` files.
- Button markup is left out: the SVG spinner, the icon wrappers and the `...props` spread of other HTML attributes. The outputs are data: class string, disabled flag, spinner flag, icons and content.
- Icons and children are `Option<Node>`. Falsy but present React nodes (`0`, `''`, `false`) are not distinguished from absent ones.
- ECMAScript white space for `trim()` is the fixed character list in `Buttons.IsJsSpace`. That list holds the line terminators, tab, vertical tab, form feed, the byte order mark and the Unicode space separators.
- Buttons.ClassName carries no contract of its own. Its properties are the lemmas CustomClassOverrides, MergedClass, PlainClassName, CustomClassIgnoresVariant and EmptyCustomClassIgnored.
