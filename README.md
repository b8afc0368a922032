# Election observation front end: session state, token refresh and forms

This project models the client-side core of an election-observation web
application in Dafny. The front end is written in React, and the back end in
Django REST framework. The model covers:

- **The authentication session store** (`AuthStore`). It holds the user, the two JWT tokens, a loading flag and an error, changed by five actions and by zustand's own `setState`. It also models the `isAuthenticated` getter and the record the persist middleware writes to storage.
- **The shared axios instance** (`AxiosConfig`):
  - every request is stamped with the store's access token;
  - a 401 reply goes down a refresh path only under a three-way guard;
  - the request is then replayed at most once, and a failed refresh logs the user out.
- **The auth flows** (`AuthService`): log in, register, log out and re-fetch the profile. Each flow is a sequence of store actions around network steps, and each failure becomes one message with a fixed precedence.
- **The form store** (`FormStore`) and **the form API wrappers** (`FormService`).
- **The schema-driven form component** (`DynamicForm`):
  - default values;
  - an ordered, first-failure-wins field validator;
  - form validation and submission.
- **The registration page and the submission page** (`RegistrationPage`, `SubmissionPage`): their ordered guards and their store updates.
- **The server's access rules** (`ObserveViews`):
  - which submissions and assignments a user sees;
  - the assignment check on creating a submission;
  - the `me` endpoint.

Two helper modules hold the JavaScript semantics the code relies on:

- `Js` covers values including `undefined`, truthiness, `String()`, `Array.prototype.join`, `Object.entries` and property reads.
- `Http` covers the outcome of an axios call. It is a 2xx body, or an error with a response, without one, or one that failed during set-up.

Every network reply is an input, so each flow is a method over the stores that is proved for all replies.

Stores and components whose fields the code updates in place are classes:

- `AuthStore.Store`, `FormStore.Store` and `AxiosConfig.RequestConfig`;
- the page and component classes.

Each method states the whole new state. The auth store also records, in a ghost `history`, the order in which its actions are called. This lets a flow's contract say which actions it calls and in what order.

The response interceptor does not share a refresh call between concurrent 401s. Its own comment (`frontend/src/services/axiosConfig.js:32-37`) lists queuing requests and preventing simultaneous refresh attempts as work a robust version would add. Every request that meets the guard makes its own refresh call, so `AxiosConfig.Send` describes one request and makes no claim about sharing.

The store does not tie the access token to the user. `loginSuccess` and `setTokens` accept any values, and `setTokens` can install a token with no user, so the model states no such invariant.

## Model

| member | source | states |
|---|---|---|
| Js.Utf16Length | frontend/src/pages/RegistrationPage.jsx:29 | `.length` of a string counts UTF-16 code units: between one and two per character, and exactly one per character iff none lies outside the Basic Multilingual Plane |
| Js.Utf16LengthOfEmoji | frontend/src/pages/RegistrationPage.jsx:29 | four emoji are eight code units long |
| Http.FieldErrorText | frontend/src/services/formService.js:65 | one `field: messages` entry is never empty; an array of messages is joined with spaces, any other value is printed as it is |
| Http.FieldErrorsEmpty | frontend/src/services/formService.js:64-67 | the `; `-joined field errors are empty exactly when the body has no entries |
| AuthStore.PartializeExactlyPersisted | frontend/src/store/authStore.js:64-73 | two sessions persist to the same record iff they agree on user, access token and refresh token; `isLoading` and `error` are never persisted |
| AuthStore.RehydrateRoundTrip | frontend/src/store/authStore.js:61-73 | a stored record is read back unchanged, and restoring a session's record gives that session with the status fields reset |
| AuthStore.Store.constructor | frontend/src/store/authStore.js:5-11 | the store starts at `initialState`: every field null, not loading |
| AuthStore.Store.IsAuthenticated | frontend/src/store/authStore.js:59 | false for a null or undefined token; for a string token, true iff it is non-empty |
| AuthStore.Store.LoginRequest | frontend/src/store/authStore.js:18 | loading and no error; user and both tokens unchanged |
| AuthStore.Store.LoginSuccess | frontend/src/store/authStore.js:20-27 | user and both tokens are exactly the arguments; not loading, no error |
| AuthStore.Store.LoginFailure | frontend/src/store/authStore.js:33-40 | the error is the argument; user and both tokens are null together; not authenticated afterwards |
| AuthStore.Store.Logout | frontend/src/store/authStore.js:42-43 | the state is `initialState` whatever it was, so logout is idempotent; not authenticated afterwards |
| AuthStore.Store.SetTokens | frontend/src/store/authStore.js:53-54 | only the two tokens change |
| AuthStore.Store.SetState | frontend/src/services/authService.js:67 | only `isLoading` and `error` change |
| AxiosConfig.StampedOverrides | frontend/src/services/axiosConfig.js:21-24 | a truthy store token sets `Authorization: Bearer <token>`, overriding the caller's header, and keeps every other header; otherwise the headers are untouched |
| AxiosConfig.StampAuthorization | frontend/src/services/axiosConfig.js:19-26 | the request interceptor leaves the config's headers stamped with the store's token |
| AxiosConfig.OnlyFirst401Refreshes | frontend/src/services/axiosConfig.js:48 | the refresh path is taken iff the reply is a 401, the request was not retried and a refresh token is held; no response, set-up errors and retried requests never refresh |
| AxiosConfig.KeptRefreshToken | frontend/src/services/axiosConfig.js:61 | a returned refresh token replaces the old one, otherwise the old one is kept, so a store that could refresh still can |
| AxiosConfig.Send | frontend/src/services/axiosConfig.js:38-80 | one request: 2xx replies pass through; every other failure is rejected unchanged; on the refresh path `_retry` is set, one refresh call carries the held refresh token, and then either (a) a failed refresh logs out and rejects with the refresh error, or (b) a successful one stores the new tokens and replays once with the new token, a 401 on the replay being rejected without refreshing again; the replay keeps every other header of the first dispatch, and the request keeps the headers of its last dispatch |
| AuthService.LoginMessagePrecedence | frontend/src/services/authService.js:26-43 | login message precedence: `detail`, then the flattened field messages of an object body, then the 401 message for a non-object body, then the default; no response and set-up errors have their own messages |
| AuthService.LoginMessageAsWrittenAgrees | frontend/src/services/authService.js:26-43 | the corrected login message differs from the code only for a `null` body |
| AuthService.LoginNullBodyThrows | frontend/src/services/authService.js:29-32 | a `null` error body makes the code throw; the corrected message is the default, or the 401 message |
| AuthService.ProfileHeadersAgreement | frontend/src/services/authService.js:16-18 | the profile request of login carries the new token iff the store holds no truthy token or one that prints the same |
| AuthService.ProfileFetchUsesStaleToken | frontend/src/services/authService.js:16-18 | with an old token in the store, the profile request as written carries the old token, not the new one |
| AuthService.LoginUser | frontend/src/services/authService.js:5-47 | `loginRequest` comes first; the profile is requested only after a token exchange with a body, the call passing the new access token and the request interceptor sending the store's earlier token instead whenever one is held; `loginSuccess` with both tokens and the profile is reached iff the token exchange and the profile fetch both succeed; otherwise `loginFailure` with the corrected message, which is the code's own message on every error the catch block does not throw on |
| AuthService.RegisterErrorMessage | frontend/src/services/authService.js:71-90 | the corrected register message is never empty |
| AuthService.RegisterMessageAsWrittenAgrees | frontend/src/services/authService.js:71-90 | on the bodies the code handles, the correction gives the code's message; a non-empty object body gives its `field: msgs` entries joined by `; `, an empty one the default |
| AuthService.RegisterDetailBodyThrows | frontend/src/services/authService.js:76-83 | a `{"detail": …}` body makes the code throw; the corrected message is `detail: …` |
| AuthService.RegisterUser | frontend/src/services/authService.js:49-94 | `loginRequest`, then on success only the status fields are reset (`loginSuccess` is never called), on failure `loginFailure` with the corrected message, which also clears user and tokens; the message is the code's own on every error the catch block does not throw on |
| AuthService.LogoutUser | frontend/src/services/authService.js:96-115 | the backend is called iff a refresh token is held; whatever its outcome, the store ends at `initialState` |
| AuthService.FetchUserProfile | frontend/src/services/authService.js:117-142 | given the reply the response interceptor passes on: success installs the profile and keeps the tokens the store then holds; only a 401 logs out; every failure is rethrown |
| AuthService.FetchUserProfileThroughInterceptor | frontend/src/services/authService.js:117-142 | the GET composed with the response interceptor (frontend/src/services/axiosConfig.js:38-80): without the refresh path the body sees the first reply; on it, one refresh call with the held refresh token, and then a failed refresh leaves the store logged out and rethrows the refresh error, while a successful one installs the replayed profile with the refreshed tokens, or logs out on a 401 replay, or keeps the refreshed tokens on any other failure |
| FormStore.Store.constructor | frontend/src/store/formStore.js:6-12 | no templates, no current template, no data, not loading, no error |
| FormStore.Store.SetLoading | frontend/src/store/formStore.js:15 | sets the loading flag and clears the error, nothing else |
| FormStore.Store.SetError | frontend/src/store/formStore.js:18 | sets the error and clears loading, nothing else |
| FormStore.Store.SetFormTemplates | frontend/src/store/formStore.js:21 | installs the template list and clears loading and error |
| FormStore.Store.SetCurrentFormTemplate | frontend/src/store/formStore.js:24-31 | installs the template with empty data, clears loading and error, keeps the template list |
| FormStore.Store.UpdateCurrentFormField | frontend/src/store/formStore.js:34-41 | only key `k` of the current data changes, to the given value |
| FormStore.Store.ResetCurrentForm | frontend/src/store/formStore.js:44-51 | the state is the initial one except for the kept template list, whatever it was, so a second reset changes nothing |
| FormStore.Store.SubmissionSuccess | frontend/src/store/formStore.js:54-59 | only loading and error change, both cleared |
| FormStore.Store.SubmissionFailure | frontend/src/store/formStore.js:61-64 | only the error and loading change |
| DynamicForm.FieldDefault | frontend/src/components/forms/DynamicFormComponent.jsx:16-29 | a field's default is its `defaultValue`, else `false` for a checkbox and `''` otherwise; never undefined |
| DynamicForm.LastNamed | frontend/src/components/forms/DynamicFormComponent.jsx:13-17 | the last schema field of a name, present iff some field has that name |
| DynamicForm.LastNamedIsLast | frontend/src/components/forms/DynamicFormComponent.jsx:13-17 | the field chosen for a name occurs in the schema and no later field has that name, so later fields overwrite earlier ones |
| DynamicForm.DefaultData | frontend/src/components/forms/DynamicFormComponent.jsx:10-33 | the keys are the initial keys plus the field names; every field ends with a defined value; a defined initial value wins; extra initial keys are kept; otherwise the last field of the name supplies its default |
| DynamicForm.ValidateField | frontend/src/components/forms/DynamicFormComponent.jsx:55-76 | every message it returns is non-empty, so a failure is always recorded |
| DynamicForm.FirstFailure | frontend/src/components/forms/DynamicFormComponent.jsx:55-76 | the first failing result of an ordered list of checks; none iff all pass |
| DynamicForm.ValidateFieldIsFirstFailure | frontend/src/components/forms/DynamicFormComponent.jsx:55-76 | checks run in the order required, email, minLength, maxLength, pattern, and the first failure is returned; null iff all pass |
| DynamicForm.RequiredEmptyFails | frontend/src/components/forms/DynamicFormComponent.jsx:56-60 | a required unchecked checkbox, or another required field holding undefined, null or `''`, fails with `<label or name> is required.` |
| DynamicForm.OptionalEmptyPasses | frontend/src/components/forms/DynamicFormComponent.jsx:62-73 | a field that is not required accepts every falsy value |
| DynamicForm.LastFailure | frontend/src/components/forms/DynamicFormComponent.jsx:82-87 | the message kept for a name is that of the last failing field of that name; none iff every field of that name passes |
| DynamicForm.LastFailureIsLast | frontend/src/components/forms/DynamicFormComponent.jsx:82-87 | the failure kept for a name is that of a failing field with no later failing field of that name |
| DynamicForm.CollectErrors | frontend/src/components/forms/DynamicFormComponent.jsx:81-89 | the error keys are exactly the failing fields' names, each with its last failure; the map is empty iff every field passes |
| DynamicForm.Component.constructor | frontend/src/components/forms/DynamicFormComponent.jsx:6-7 | both state maps start empty and the effect has not run |
| DynamicForm.Component.Initialize | frontend/src/components/forms/DynamicFormComponent.jsx:10-35 | the effect's body installs the defaulted data and clears every error: every field gets a defined value, a defined initial value wins, other initial keys are kept, and otherwise the last field of the name supplies its default (`false` for an unchecked checkbox) |
| DynamicForm.Component.HandleChange | frontend/src/components/forms/DynamicFormComponent.jsx:38-53 | only the changed field's value is replaced (a checkbox takes `checked`), and only its shown error is nulled |
| DynamicForm.Component.ValidateForm | frontend/src/components/forms/DynamicFormComponent.jsx:78-90 | true without a schema; otherwise the shown errors are exactly the failing fields, and the result is true iff no field fails |
| DynamicForm.Component.RenderAsWritten | frontend/src/components/forms/DynamicFormComponent.jsx:5-36 | as written: the effect runs on the first render, whenever a dependency changes, and on every render that omits `initialData`; when it runs, the data is re-defaulted and the errors cleared, whatever was edited; otherwise nothing changes |
| DynamicForm.Component.Render | frontend/src/components/forms/DynamicFormComponent.jsx:5-36 | corrected: the effect runs exactly when the schema or the supplied (or empty) `initialData` differs from its last run; otherwise the edited data and the shown errors are kept |
| DynamicForm.EditLostAsWritten | frontend/src/components/forms/DynamicFormComponent.jsx:5-36 | a text field edited to "alice" shows '' again after the next render, as written |
| DynamicForm.EditSurvivesRender | frontend/src/components/forms/DynamicFormComponent.jsx:38-98 | with the correction the edit survives the next render, and `onSubmit` receives `{name: "alice"}` |
| DynamicForm.Component.HandleSubmit | frontend/src/components/forms/DynamicFormComponent.jsx:92-99 | `onSubmit` receives the form data iff validation succeeds; the shown errors are exactly the failing fields, each with its last failure's message; without a schema the errors are unchanged |
| FormService.ResultWrapping | frontend/src/services/formService.js:6-72 | each wrapper succeeds iff the call does, carrying its body unchanged, and never throws |
| FormService.FetchFailureMessage | frontend/src/services/formService.js:19-37 | a failed fetch reports a truthy `detail`, else that call's fixed fallback |
| FormService.SubmitMessageRules | frontend/src/services/formService.js:58-69 | `detail` wins over field errors; field errors are used iff the body has entries; the default covers a missing or falsy body and a body with no entries |
| FormService.SubmitSingleFieldError | frontend/src/services/formService.js:63-67 | a validation body with one field (not `detail`) whose value is a one-message array, `{field: [message]}`, is reported as `field: message` |
| RegistrationPage.LocalError | frontend/src/pages/RegistrationPage.jsx:25-37 | the form may be sent iff the passwords agree, the password is at least 8 UTF-16 code units long and the email contains `@`; a mismatch is reported before the length, the length before the email |
| RegistrationPage.EmojiPasswordLongEnough | frontend/src/pages/RegistrationPage.jsx:29-32 | a password of four emoji passes the length rule, as `.length` counts it |
| RegistrationPage.Page.constructor | frontend/src/pages/RegistrationPage.jsx:7-11 | all inputs and the local error start empty |
| RegistrationPage.Page.HandleSubmit | frontend/src/pages/RegistrationPage.jsx:20-50 | `loginFailure(null)` first; a failed local check only shows its message; otherwise `registerUser` is called with exactly `{username, email, password}` and success, only, navigates to `/login?registration=success`; the session always ends logged out; a register error shows the code's own message whenever its catch block produces one |
| SubmissionPage.Page.constructor | frontend/src/pages/SubmissionPage.jsx:26 | no page error |
| SubmissionPage.Page.LoadTemplate | frontend/src/pages/SubmissionPage.jsx:35-66 | an anonymous visitor is sent to `/login` with the `from` path and nothing is fetched; a missing id puts the same message in page and store; otherwise the fetched template is installed, or `response.error` or the fallback naming the id is shown in both |
| SubmissionPage.Page.Leave | frontend/src/pages/SubmissionPage.jsx:28-33 | leaving resets the current form and keeps the template list |
| SubmissionPage.Page.HandleFormSubmit | frontend/src/pages/SubmissionPage.jsx:68-104 | a missing user id, then a missing template id, aborts with its message and sends nothing; otherwise it sends `{observer: user.id, polling_unit: 1, form_template: template.id, responses}` while the store shows loading and no error; success resets the form and goes to `/dashboard`, failure shows the error or the default |
| ObserveViews.SubmissionsBy | observe/views.py:61 | exactly the submissions of that observer |
| ObserveViews.SubmissionVisibility | observe/views.py:57-61 | staff see all submissions; anyone else sees exactly their own |
| ObserveViews.AssignmentsOf | observe/views.py:45 | exactly the assignments of that observer |
| ObserveViews.ObserverAssignments | observe/views.py:41-45 | PermissionDenied (`Only observers can access this.`) iff the user is not an observer; otherwise exactly their own assignments |
| ObserveViews.CreateRules | observe/views.py:63-69 | a create succeeds iff one of the requester's assignments covers the polling unit, else PermissionDenied (`You are not assigned to this polling unit.`); the saved observer is the requester whatever the request named |
| ObserveViews.CreatedIsVisible | observe/views.py:57-69 | a submission a user creates is among those that user then sees |
| ObserveViews.MeExposesExactly | observe/views.py:17-20 | `me` returns exactly the id, username and the two role flags of the requesting user, never email or password |

## Left out

- Rendering (JSX, CSS classes, `alert`, `console` output), `ProtectedRoute.jsx`, the route table and the placeholder login page: none of them changes state beyond reading `isAuthenticated`.
- The axios transport, the 10 s timeout and the base URL: every network step is an input outcome; a timeout is the `NoResponse` outcome.
- localStorage and the persist middleware's internals: persistence is the `Partialize` function and rehydration a shallow merge (`Rehydrate`).
- Concurrent requests: no interleaving of several requests through the interceptor is modelled; the code shares no refresh call between them.
- AuthService.LoginUser: each network step's outcome is taken after the response interceptor has run. A 401 inside login, register or logout is not composed with `AxiosConfig.Send`. Only the profile request is passed through the request interceptor.
- SubmissionPage.Page.LoadTemplate: the template request and, in `SubmissionPage.Page.HandleFormSubmit`, the submit request go through the shared instance, whose response interceptor may call `setTokens` or `logout` on the auth store on a 401. Both methods take the reply the interceptor passes on and change only the form store, so those auth-store effects are not part of their contracts. `AuthService.FetchUserProfileThroughInterceptor` shows the composition for the profile request.
- AuthService.LoginUser: the flow uses the corrected message. For a JSON `null` error body the code throws inside its catch block and leaves the store loading (see "## Findings"); the model settles with the default or 401 message instead.
- AuthService.RegisterUser: the flow uses the corrected message. For a `null` body, or an object body with a value that is not an array, the code throws before `loginFailure` and leaves the store loading (see "## Findings"); the model settles with a message instead.
- RegistrationPage.Page.HandleSubmit: it inherits the register flow's corrected message, so it settles on the bodies where the code throws.
- The `parseFloat` conversion of number inputs is floating point: `DynamicForm.ChangedValue` takes it as a function parameter. Numbers in JSON values are integers.
- The email regular expression and each field's `pattern` are an oracle parameter. A `pattern` that is not a valid regular expression makes `new RegExp` throw; the model does not capture this.
- DynamicForm.Field: `minLength` and `maxLength` are integers. A schema giving them as strings is not modelled.
- DynamicForm.Component.HandleChange: the `formErrors` value the change handler closes over is taken to be the current one.
- React effect scheduling: effects and handlers are methods called one at a time; the auth state the submission handler reads is the store's current state.
- DynamicForm.Component.RenderAsWritten: React compares effect dependencies by identity (`Object.is`); the model compares them by value, except for the omitted `initialData`, whose default literal is a new object on every render. A caller that passes an equal but new `initialData` object on every render would also re-run the effect; the model does not capture this. The endless cycle of re-renders that the as-written effect causes (each run sets state, which renders, which runs it again) is stated one render at a time.
- SubmissionPage.Page.LoadTemplate: the effect's `.catch` branch is left out because `fetchFormTemplateById` never rejects.
- Error messages taken from a body's `detail` are converted with `String()`. The code passes the value itself on. The two differ in what is displayed only when `detail` is not a string.
- Response bodies are taken to have distinct keys: a property read returns the first entry of a key.
- Js.Entries: `Object.entries` and `Object.values` list integer-like keys first, in ascending order, and then the others in insertion order. The model keeps insertion order for all keys, so a body such as `{"b": [...], "1": [...]}` has its field errors joined in a different order than the code's. `Js.CharEntries` gives one entry per character of a string body, where `Object.entries` gives one per UTF-16 code unit: a character above U+FFFF becomes two entries, each a lone surrogate, so the field-error text built from such a body differs.
- AuthStore.RehydrateRoundTrip: storage goes through `JSON.stringify`, which drops keys whose value is `undefined`. A token set to `undefined` by `setTokens` comes back as `null`, so the round trip holds only for values JSON can represent.
- Django's permission classes (`IsAuthenticated`, `IsAdminUser`), the ORM, the serializers' validation and the plain CRUD viewsets (LGA, polling unit, assignment, form template) are library configuration. `request.user` is an authenticated user.

## Findings

| source | as written | input that shows it | evidently intended | confidence | as-written member | corrected member |
|---|---|---|---|---|---|---|
| frontend/src/services/authService.js:76-83 | every body with `typeof data === 'object'` goes through `messages.join(' ')`. That throws a TypeError for a `null` body and for any entry whose value is not an array, so `registerUser` rejects without calling `loginFailure` and the store stays loading. The `detail` branch after it is unreachable for object bodies. | `ErrResponse(429, {"detail": "Request was throttled."})` | every entry is printed, with an array joined by spaces and any other value as it is (as `submitSubmission` does), and the flow settles with a non-empty message. Testing `detail` first would change the message of bodies the code handles today, such as `{"detail": ["..."]}`; this correction keeps the code's message on every body it does not throw on | high, not executed | AuthService.RegisterDetailBodyThrows | AuthService.RegisterErrorMessage |
| frontend/src/services/authService.js:29-32 | a JSON `null` error body passes `typeof data === 'object'`. `Object.values(null)` then throws, so `loginUser` rejects instead of returning `{success: false}`, and the store stays loading. | `ErrResponse(500, null)` | a `null` body is treated like any other non-object body: the 401 message or the default | medium, not executed | AuthService.LoginNullBodyThrows | AuthService.LoginMessagePrecedence |
| frontend/src/services/authService.js:16-18 | the profile request sets `Authorization: Bearer <new access>`. The request interceptor (`frontend/src/services/axiosConfig.js:21-24`) replaces it with the store's token while the store still holds an earlier session's access token. The profile of that earlier session is then installed with the new tokens. | store access token `"old-access"`, token exchange returning access `"new-access"` | the profile is fetched with the new access token | medium, not executed | AuthService.ProfileFetchUsesStaleToken | AuthService.ProfileHeadersAgreement |
| frontend/src/components/forms/DynamicFormComponent.jsx:5-36 | the `initialData = {}` default is a new object on every render, and the effect lists `initialData` among its dependencies. The only caller (`frontend/src/pages/SubmissionPage.jsx:124-128`) never passes it, so the effect runs after every render, including the one after each change: every field is put back to its default and every error cleared, and the state it sets renders again without end. An edit never reaches `onSubmit`. | a schema with one text field `name` and no default; a change to "alice"; the next render | the effect runs again only when the schema or a supplied `initialData` changes (a stable empty default), so the edited value is kept and submitted | high, not executed | DynamicForm.EditLostAsWritten | DynamicForm.EditSurvivesRender |
