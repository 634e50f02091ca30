# Inventory dashboard: view-state model

A role-gated inventory app. Users sign in. The dashboard then reads the
session and the user's profile, and shows one of two views. Administrators get
a management view where they can create, edit and delete products. Everyone
else gets a read-only list. Every read, write and authentication action goes to
an external hosted backend, so the app has no logic of its own apart from the
view state around those calls. This project models that view state:

- `gateway.dfy` (module `Gateway`): the backend as the pages see it. It holds
  the product row, the record sent by an insert or an update, the four requests
  made to the `products` table, the answers a write or a select can get, and the
  session.
- `dashboard_admin.dfy` (module `DashboardAdmin`): the management view.
  `AdminState` has the view's eight state slots. Each event handler is a step
  function that takes the old state and the backend's answers and returns the
  new state and the requests sent (`Step`). `Render` picks the screen. `Run`
  handles a sequence of events one after another. The class `AdminView` holds
  the same slots as mutable fields and runs each handler as a sequence of
  assignments, as the component does. A ghost log records every request sent.
  Each method is proved to reach the state that its step function gives.
- `dashboard_page.dfy` (module `DashboardPage`): the dashboard's session gate.
  It covers the mount procedure, sign-out, the role gate and the choice of
  screen. The class `DashboardView` runs the same procedures on mutable fields
  and keeps a ghost log of effects: profile lookup, sign-out and redirect.
- `signin_page.dfy` (module `SignInPage`): the sign-in form's submit handler.
  `SignInStep` is the whole handler. `StartStep` and `FinishStep` are the same
  handler split at its one `await`, and a lemma proves the two versions agree.
  The split shows the state the page is in while the request is pending. The
  submit button is disabled in that state, and the model proves this means at
  most one sign-in request is ever pending.

The backend's answers are parameters of the handlers. The browser events are
the elements of an event sequence. The lemmas over `Run` hold for any order of
events, including orders the rendered screen would not offer.

## Model

| member | source | states |
|---|---|---|
| `DashboardAdmin.FetchStep` | app/components/DashboardAdmin.tsx:34-48 | a refresh sends exactly one select. On success it replaces the product list wholesale and keeps the page error. On failure it keeps the list and sets the page error to the failure text. Loading is false afterwards in both cases. No other slot changes |
| `DashboardAdmin.AdminView.FetchProducts` | app/components/DashboardAdmin.tsx:34-48 | sets loading, logs the select, stores the rows or the error, then clears loading. The resulting state and log equal `FetchStep`'s |
| `DashboardAdmin.WithField` | app/components/DashboardAdmin.tsx:56 | the named field takes the typed text, as text even where the row held a number. The id and the other two fields are unchanged |
| `DashboardAdmin.InputChangeStep` | app/components/DashboardAdmin.tsx:54-57 | typing changes only the named field of the draft, which then holds the typed text. No request is sent and no other slot changes |
| `DashboardAdmin.AdminView.HandleInputChange` | app/components/DashboardAdmin.tsx:54-57 | updates the one field in place. The result equals `InputChangeStep`'s |
| `DashboardAdmin.SubmitStep` | app/components/DashboardAdmin.tsx:59-92 | if any of the three fields is falsy (an empty name, or a price or quantity that is the empty string or the number 0), the result is "Semua field harus diisi!" as an error and no request is sent. Otherwise exactly one write is sent, carrying the draft's three fields and no id: an update keyed by the draft's id in edit mode, or a one-record insert in create mode. A failed write shows the provider's text and keeps the draft and the mode. A successful write shows "Produk berhasil diperbarui!" or "Produk berhasil ditambahkan!" depending on the mode before the reset, empties the draft, leaves edit mode, and is followed by one select that leaves the success message in place. The dialog slots are unchanged |
| `DashboardAdmin.EditedZeroIsRefused` | app/components/DashboardAdmin.tsx:62 | a row loaded for editing whose quantity is the number 0 cannot be saved unchanged: the submit sends no request and shows "Semua field harus diisi!". Once "0" is typed into the quantity input, the same submit sends the update |
| `DashboardAdmin.SubmitIgnoresOldMessage` | app/components/DashboardAdmin.tsx:61 | the status line is cleared before validation, so the outcome of a submit does not depend on the message shown before it |
| `DashboardAdmin.AdminView.HandleSubmit` | app/components/DashboardAdmin.tsx:59-92 | clears the message, validates, logs the insert or update, then either sets the error message or sets the success message, resets the form and refreshes. The resulting state and log equal `SubmitStep`'s |
| `DashboardAdmin.EditStep` | app/components/DashboardAdmin.tsx:94-99 | editing a row enters edit mode, makes the draft equal to the row and clears the status line. No request is sent and nothing else changes |
| `DashboardAdmin.AdminView.HandleEdit` | app/components/DashboardAdmin.tsx:94-99 | the in-place version of `EditStep` |
| `DashboardAdmin.DeleteStep` | app/components/DashboardAdmin.tsx:101-104 | a delete request records the row as pending and opens the dialog. No request is sent and nothing else changes |
| `DashboardAdmin.AdminView.HandleDelete` | app/components/DashboardAdmin.tsx:101-104 | the in-place version of `DeleteStep` |
| `DashboardAdmin.DeleteClickStep` | app/components/DashboardAdmin.tsx:281-286 | the row's delete button passes the request on only for a row that has an id. For a row without one, the state is unchanged |
| `DashboardAdmin.AdminView.DeleteClicked` | app/components/DashboardAdmin.tsx:281-286 | the in-place version of `DeleteClickStep` |
| `DashboardAdmin.ConfirmDeleteStep` | app/components/DashboardAdmin.tsx:106-118 | the dialog always closes and nothing stays pending. The form is never touched. Without a pending row that has an id, no request is sent. Otherwise one delete is sent, keyed by that id. A failed delete sets the page error, not the form message, and triggers no refresh. A successful delete is followed by one refresh |
| `DashboardAdmin.AdminView.HandleConfirmDelete` | app/components/DashboardAdmin.tsx:106-118 | the in-place version of `ConfirmDeleteStep`, including its request log |
| `DashboardAdmin.ResetStep` | app/components/DashboardAdmin.tsx:120-123 | a reset leaves an empty draft with no id and create mode. Nothing else changes |
| `DashboardAdmin.AdminView.ResetForm` | app/components/DashboardAdmin.tsx:120-123 | the in-place version of `ResetStep` |
| `DashboardAdmin.CancelStep` | app/components/DashboardAdmin.tsx:192-195 | cancel resets the form and clears the status line. No request is sent and nothing else changes |
| `DashboardAdmin.AdminView.HandleCancel` | app/components/DashboardAdmin.tsx:192-195 | the in-place version of `CancelStep` |
| `DashboardAdmin.CloseModalStep` | app/components/DashboardAdmin.tsx:319 | the dialog's close callback hides the dialog. The pending row stays recorded |
| `DashboardAdmin.AdminView.CloseModal` | app/components/DashboardAdmin.tsx:319 | the in-place version of `CloseModalStep` |
| `DashboardAdmin.AdminView.constructor` | app/components/DashboardAdmin.tsx:14-32 | the view starts loading, with no rows, no error, create mode, the dialog closed, nothing pending, a blank message and an empty draft |
| `DashboardAdmin.Render` | app/components/DashboardAdmin.tsx:125-322 | the loading text shows exactly when loading is set. Otherwise the error text shows exactly when the error is non-empty, and it replaces the whole view. The management screen shows the cancel button only in edit mode and the status line only when it has text. A row's delete button is enabled exactly when the row has an id. The "no products" placeholder shows exactly when the list is empty. The dialog names the pending product, or "" if none is pending |
| `DashboardAdmin.RunKeepsConsistent` | app/components/DashboardAdmin.tsx:94-123 | every event sequence preserves these invariants: the dialog is open only over a pending row with an id; a draft has an id only in edit mode; a blank status line has no text; a success line is one of the two success texts |
| `DashboardAdmin.Reachable` | app/components/DashboardAdmin.tsx:14-32 | every state reachable from the initial state satisfies the invariant |
| `DashboardAdmin.OpenDialogConfirmDeletes` | app/components/DashboardAdmin.tsx:106-118 | in any consistent state, confirming an open dialog sends the delete for the pending row |
| `DashboardAdmin.LoadingStaysSettled` | app/components/DashboardAdmin.tsx:34-48 | once loading is false, no sequence of events leaves it true |
| `DashboardAdmin.ErrorIsSticky` | app/components/DashboardAdmin.tsx:43-114 | the page error is never reset. Once it is non-empty, it stays non-empty through any event sequence whose failures all carry text |
| `DashboardAdmin.LocalEventsSendNothing` | app/components/DashboardAdmin.tsx:54-104 | any sequence of typing, edit, cancel, delete-request and dialog-close events sends no request and leaves the rows, the page error and the loading flag unchanged |
| `DashboardPage.LoadStep` | app/dashboard/page.tsx:23-64 | a session error or a missing session redirects to /signin, does not look up a profile and changes no state, so loading stays set. Given a session, the page looks up that user's profile and loading ends whatever the answer. A found profile is stored. An unreadable profile causes a sign-out and then a redirect to /signin, and no profile is stored |
| `DashboardPage.DashboardView.GetSessionAndProfile` | app/dashboard/page.tsx:23-64 | the in-place version of `LoadStep`, including its effect log |
| `DashboardPage.SignOutStep` | app/dashboard/page.tsx:69-72 | sign-out always signs out and then redirects to /signin, and leaves the state unchanged |
| `DashboardPage.DashboardView.HandleSignOut` | app/dashboard/page.tsx:69-72 | the in-place version of `SignOutStep` |
| `DashboardPage.DashboardView.constructor` | app/dashboard/page.tsx:17-19 | the page starts with no session, no profile and loading set |
| `DashboardPage.RoleOf` | app/dashboard/page.tsx:112 | the admin view is chosen exactly when the role is the string "admin". Every other string gets the user view |
| `DashboardPage.Render` | app/dashboard/page.tsx:74-112 | the loading text shows exactly when loading is set. Otherwise the profile failure text shows exactly when there is no profile. Otherwise the header shows the profile's username and role, and the role gate picks the view |
| `DashboardPage.MountOutcome` | app/dashboard/page.tsx:22-88 | after the gate runs on a fresh page, the dashboard shows exactly when the session and the profile were both read, and otherwise a redirect to /signin was issued. Without a session the loading text stays up. With an unreadable profile the profile failure text shows |
| `SignInPage.FailureText` | app/signin/page.tsx:33-37 | a failed sign-in shows the provider's text if it is non-empty and the fixed fallback otherwise, so the message is never empty |
| `SignInPage.SignInStep` | app/signin/page.tsx:14-41 | with an empty email or password, the page shows "Email and password are required.", sends no request and leaves loading unchanged. Otherwise it sends one sign-in request with the form's credentials and loading ends false. Success navigates to /dashboard with the error cleared. Failure does not navigate and shows `FailureText` of the provider's text |
| `SignInPage.StartStep` | app/signin/page.tsx:14-28 | the handler up to its await sends a request only when both fields are present, and loading is set while the request is pending. The error is cleared, or set to the required-fields text when no request is sent |
| `SignInPage.FinishStep` | app/signin/page.tsx:30-40 | after the await, loading is false whatever the answer. Success navigates to /dashboard. Failure sets the chosen error text |
| `SignInPage.SplitAtAwait` | app/signin/page.tsx:14-41 | running the two halves back to back does exactly what the whole handler does |
| `SignInPage.Apply` | app/signin/page.tsx:89 | a submit while loading is set does nothing, because the button is disabled |
| `SignInPage.LoadingCountsInFlight` | app/signin/page.tsx:23-40 | over any event sequence, requests sent minus answers received equals the change in the loading flag |
| `SignInPage.AtMostOneInFlight` | app/signin/page.tsx:23-89 | from a fresh page, at most one sign-in request is pending at any time, and one is pending exactly while loading is set |
| `SignInPage.SignInForm.HandleSignIn` | app/signin/page.tsx:14-41 | clears the error, validates, sets loading, logs the request, navigates or sets the error, then clears loading. The resulting state and log equal `SignInStep`'s |
| `SignInPage.SignInForm.SetEmail` | app/signin/page.tsx:62 | typing in the email field changes only the email |
| `SignInPage.SignInForm.SetPassword` | app/signin/page.tsx:80 | typing in the password field changes only the password |
| `SignInPage.SignInForm.constructor` | app/signin/page.tsx:8-11 | the form starts with empty fields, no error and loading unset |

## Behaviour worth noting

- The dashboard's "failed to load profile" screen is reachable. When the
  profile lookup fails, the `finally` block clears loading and the profile
  stays null, so that screen shows until the redirect to /signin takes effect.
  `DashboardPage.MountOutcome` states this.
- Every dashboard auth failure redirects to sign-in, but a session error or a
  missing session returns before the `try`. Loading is then never cleared and
  the loading text stays up.
- No handler clears the management view's page error on purpose, but
  `setError` with an empty failure text sets it back to "". `ErrorIsSticky`
  therefore requires every later failure to carry text.
- The submit's presence check tests the draft's values for falsiness. A draft
  loaded by Edit holds the row's numbers, so a stored price or quantity of 0
  counts as missing until the user retypes it. `EditedZeroIsRefused` states
  this.

## Left out

- Backend semantics. Queries, authentication, sessions and row-level rules
  belong to the external service. The model treats their answers as parameters
  and records requests in a ghost log. It does not model a product table that
  the requests change.
- `parseInt` of price and quantity (app/components/DashboardAdmin.tsx:69-70).
  `Record` carries the draft's values (typed text or a loaded number) that
  these integers are parsed from, so the model does not say which integer is
  stored.
- Conversion of thrown values to text. In the management view (line 44), a
  failed select is modelled by the text it produces. On the sign-in page, a
  thrown value that is not an `Error` is modelled as a failure with empty text,
  which leads to the same fallback message.
- `created_at` on product rows, and the newest-first order of the select. The
  store does the ordering.
- The `Rp` currency formatting (line 254), `window.scrollTo` (line 95),
  `console.error` logging, all markup and styling, and the router itself. A
  navigation is recorded as an effect only.
- Asynchronous interleavings. Each management-view and dashboard handler is one
  atomic step. A state update arriving after the component unmounts is not
  modelled. On the sign-in page only the split at the one `await` is modelled.
- The confirmation dialog's timers and animation state
  (app/components/DeleteConfimationModal.tsx). These are timing and UI
  behaviour. Its only effect modelled here is that confirm calls
  `HandleConfirmDelete` and close calls `CloseModal`. For 300 ms after closing,
  the confirm button stays clickable while the dialog animates out. The event
  model covers this because `ConfirmDelete` is allowed in every state.
- The read-only list view (app/components/DashboardUser.tsx). It makes one
  select that the store orders, and its only logic is a loading/error switch.
- The unused `session` slot of the dashboard page is stored, as in the code,
  but nothing reads it.
