# Expressly front end: session provider, member panel and login form

This project models, in Dafny, the three pieces of local state logic of the
Expressly web front end. The identity service and the document store are
not modelled. Each awaited call into them is a parameter of type
`Outcome<T>`: `Ok(value)` or `Fail(message)`.

- `session.dfy` (`app/components/AuthProvider.js`): the `AuthProvider`
  component. It is a class with the `user` and `loading` hooks and a
  `subscribed` flag for the auth-state listener. There is one method per
  operation: the listener callback, `signup`, `login`, `logout`,
  `resetPassword`, `confirmPasswordReset` and the effect's cleanup. Each
  state-changing method's new state is tied to the pure transition `Step`;
  the two reset methods have no `modifies` clause and change nothing. `Run` folds
  `Step` over a sequence of events. The lemmas about `Run` state the
  provider's lifetime properties:
  - loading never comes back;
  - children render exactly once an auth event has been delivered;
  - the last auth event wins;
  - after unmount, auth events are ignored.
- `members.dfy` (`app/our-members-panel/page.js`): the admin member panel.
  - Pure functions cover the fetch mapping `{id: doc.id, ...doc.data()}`,
    the `filter` used for single delete, JavaScript's `Array.prototype.slice`,
    the page window, and `Math.ceil(n / 20)`.
  - Lemmas show that the pages 1..`totalPages` reproduce the list exactly,
    and that the delete filter keeps order and is idempotent.
  - The `MembersPanel` class holds the component's state hooks. Its methods
    are the handlers and the dialog buttons. Each one keeps the invariant
    that the single-delete dialog is open exactly when a member is selected.
- `login_form.dfy` (`app/page.js`): the login/signup page.
  - A `LoginPage` class holds `isLogin`, the form, `error`, `success` and
    `loading`. It also holds the current route and a trace of the service
    calls made so far.
  - `HandleSubmit` is proved against the pure function `SubmitSpec`, and it
    drives the `AuthProvider` of `session.dfy`.
  - Lemmas about `SubmitSpec` cover the order of the calls, the early exits
    and when navigation to `/feed` happens.
- `outcomes.dfy`: the `Outcome` and `Option` datatypes.

Two behaviours of the code are easy to misread; the model follows the code:

- `logout` clears the user only after `signOut` resolves. If the remote call
  rejects, the user is kept (AuthProvider.js lines 43-46). It is not cleared
  unconditionally.
- Delete-all is all-or-nothing on the local list. If any deletion rejects,
  the list is left exactly as it was, even though some documents may already
  be gone from the store (page.js lines 58-70).

## Model

| member | source | states |
|---|---|---|
| `Session.AuthProvider.constructor` | app/components/AuthProvider.js:19-23 | on mount the user is null, loading is true and the auth-state listener is registered |
| `Session.AuthProvider.OnAuthStateChanged` | app/components/AuthProvider.js:23-26 | a delivered event sets the user to its payload and clears loading; once the listener is released an event changes nothing |
| `Session.AuthProvider.Signup` | app/components/AuthProvider.js:31-35 | returns the service's credential or error unchanged; the user becomes the credential's user only on success, otherwise it is kept; loading untouched |
| `Session.AuthProvider.Login` | app/components/AuthProvider.js:37-41 | same as sign-up for sign-in: user set from the credential only after the call resolves, error propagated with the user kept |
| `Session.AuthProvider.Logout` | app/components/AuthProvider.js:43-46 | a resolved sign-out leaves no user; a rejected one propagates the error and keeps the user |
| `Session.AuthProvider.ResetPassword` | app/components/AuthProvider.js:48-50 | propagates the service's outcome and changes neither user nor loading |
| `Session.AuthProvider.ConfirmPasswordReset` | app/components/AuthProvider.js:52-54 | propagates the service's outcome and changes neither user nor loading |
| `Session.AuthProvider.Unmount` | app/components/AuthProvider.js:28 | the cleanup releases the listener and keeps user and loading |
| `Session.LoadingNeverReturns` | app/components/AuthProvider.js:20-26 | once loading is false, no sequence of events sets it back to true |
| `Session.SubscribedUntilUnmount` | app/components/AuthProvider.js:22-29 | the listener stays registered exactly until the first unmount |
| `Session.LoadingUntilFirstDelivery` | app/components/AuthProvider.js:20-26 | loading is still true after a run if and only if it was before and no auth event reached the listener |
| `Session.RenderGate` | app/components/AuthProvider.js:65-68 | from mount on, children render exactly once an auth event has been delivered before teardown |
| `Session.LastAuthEventWins` | app/components/AuthProvider.js:23-26 | while subscribed, the last auth event's payload is the user and loading is false, whatever sign-up or log-in results came before |
| `Session.UnmountedIgnoresAuthEvents` | app/components/AuthProvider.js:28 | after teardown a run equals the same run with every auth event removed |
| `Session.LogoutIdempotent` | app/components/AuthProvider.js:43-46 | a resolved log-out leaves no user, and a second one gives the same state |
| `Members.FromDoc` | app/our-members-panel/page.js:28-31 | the entry has the document's fields plus `id`; a stored `id` field overrides the document key |
| `Members.FromDocs` | app/our-members-panel/page.js:28-31 | the list has one entry per document, in snapshot order |
| `Members.RemoveById` | app/our-members-panel/page.js:48 | an entry is kept if and only if it was in the list and its `id` is not the deleted one |
| `Members.RemoveByIdConcat` | app/our-members-panel/page.js:48 | the filter distributes over concatenation, so kept entries keep their order |
| `Members.RemoveByIdIdempotent` | app/our-members-panel/page.js:48 | deleting the same id twice gives the same list as deleting it once |
| `Members.RemoveByIdAbsent` | app/our-members-panel/page.js:48 | when no entry has the id, the list comes back unchanged |
| `Members.Slice` | app/our-members-panel/page.js:75 | for `0 <= start <= end`, `slice` is the sub-list between the two bounds cut at the list's end |
| `Members.PageWindow` | app/our-members-panel/page.js:73-75 | page `p` is the window `[(p-1)*20, p*20)` cut at the list's end; it is empty when the window starts past the end and holds at most 20 entries |
| `Members.TotalPages` | app/our-members-panel/page.js:76 | `totalPages*20 >= n`, `(totalPages-1)*20 < n` for a non-empty list, and 0 pages for an empty one |
| `Members.PageBeyondLastIsEmpty` | app/our-members-panel/page.js:73-76 | a page number beyond `totalPages` shows nothing |
| `Members.PagesUpToTotalAreNonEmpty` | app/our-members-panel/page.js:73-76 | each page whose button is rendered shows at least one entry |
| `Members.PagesArePrefix` | app/our-members-panel/page.js:73-75 | pages 1..k together are the first `k*20` entries of the list |
| `Members.PagesCoverList` | app/our-members-panel/page.js:135-138 | the pages of the rendered buttons 1..`totalPages`, put together, are the list itself |
| `Members.MembersPanel.CurrentUsers` | app/our-members-panel/page.js:73-75 | the shown entries are entries of the list, at most 20 of them |
| `Members.MembersPanel.constructor` | app/our-members-panel/page.js:14-19 | the list starts empty and loading, on page 1, with both dialogs closed and nothing selected |
| `Members.MembersPanel.FetchUsers` | app/our-members-panel/page.js:24-39 | on success the mapped snapshot replaces the list; on failure the list is kept; loading is false either way |
| `Members.MembersPanel.SelectPage` | app/our-members-panel/page.js:135-138 | a page button sets the page to `i+1`, and that page shows at least one entry |
| `Members.MembersPanel.AskDelete` | app/our-members-panel/page.js:120-123 | clicking a shown entry's trash button selects it and opens the single-delete dialog |
| `Members.MembersPanel.CancelDelete` | app/our-members-panel/page.js:159-162 | cancelling closes the dialog and clears the selection |
| `Members.MembersPanel.DeleteUser` | app/our-members-panel/page.js:45-56 | on success exactly the entries with that id leave the list, and the dialog closes with the selection cleared; on failure list and dialog are unchanged |
| `Members.MembersPanel.ConfirmDelete` | app/our-members-panel/page.js:168 | the dialog's Delete button deletes by the selected entry's id |
| `Members.MembersPanel.AskDeleteAll` | app/our-members-panel/page.js:98 | the Delete All button opens its dialog |
| `Members.MembersPanel.CancelDeleteAll` | app/our-members-panel/page.js:186 | cancelling closes the delete-all dialog |
| `Members.MembersPanel.DeleteAll` | app/our-members-panel/page.js:58-70 | if every deletion resolves, the list is empty and the dialog closes; if any rejects, list and dialog are unchanged |
| `LoginForm.SubmitNavigatesIffAllSucceed` | app/page.js:48-75 | a submission navigates to the feed if and only if every awaited step succeeded (and the username was free), and then no error is shown |
| `LoginForm.SubmitShowsFailureMessage` | app/page.js:70-72 | whichever awaited step fails, its error message is what the page shows |
| `LoginForm.UsernameTakenStopsBeforeSignup` | app/page.js:53-58 | a taken username makes only the availability check and shows "Username is already taken"; no account is created and no profile written |
| `LoginForm.SubmitCallOrder` | app/page.js:49-66 | log-in makes one log-in call; sign-up calls check, sign-up, profile write in that order, each only after the previous succeeded, and the profile holds name, username and e-mail under the new uid |
| `LoginForm.SignupProfileKeyedBySessionUser` | app/page.js:60-66 | after a successful sign-up the session provider holds the user whose uid keys the written profile |
| `LoginForm.LoginPage.constructor` | app/page.js:28-37 | the page starts in log-in mode with an empty form, no messages and not loading |
| `LoginForm.LoginPage.HandleSubmit` | app/page.js:42-76 | the calls, error and navigation are those of `SubmitSpec`; success is cleared; every exit leaves loading false; the session provider sees exactly the log-in or sign-up result |
| `LoginForm.LoginPage.HandleForgotPassword` | app/page.js:78-92 | with no e-mail only an error is set and no call made; otherwise one reset call, then success shown and error cleared, or error shown and success cleared |
| `LoginForm.LoginPage.ToggleMode` | app/page.js:309-313 | switching flips the mode and clears both messages |

## Left out

- The identity service and the document store. Each awaited call is an `Outcome` parameter. The identity service calls the listener only while it is registered, and the model takes that as given.
- Interleaving of asynchronous callbacks. Each `await` is one sequential step.
- `Promise.all` in delete-all: the model takes one outcome per entry and looks only at whether all of them resolved. The order in which the deletions complete is not modelled.
- Field values of stored documents are modelled as strings. Other JSON value types are not.
- The error kinds of the services are not modelled. An error is its message.
- `app/firebase/utils.js` is not part of this model. Its `checkUsernameAvailability` is the `available` reply. Its `createUserDocument` is the recorded `CreateUserDocument` call. The `createdAt`/`updatedAt` timestamps it adds come from the clock and are left out.
- Router navigation is modelled only as the current route string.
- The form's `onChange` input edits, the show-password toggle, the disabled state of the submit button, toasts, `console.error`, markup, animations and the environment-driven admin link are left out. They are user interface with no state logic.
