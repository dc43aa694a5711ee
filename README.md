# React-Native-API-calls: session, forms and validation in Dafny

This project models the logic of the React Native demo application
React-Native-API-calls. It covers:

- the session layer: the `AuthReducer`, the `AuthProvider` with its
  AsyncStorage persistence, and the simpler `AppProvider`;
- the two form reducers, for sign-up and for password update;
- the shared validator `validateForm`;
- the decision logic of the four handlers `handleLogin`, `handleSignUp`,
  `handleUpdatePassword` and `handlePost`.

Each core source file becomes one Dafny module, and three shared modules (`Text`, `EmailPattern` and `Values`) stand for the language and library behaviour those files rely on:

| module | file | source |
|---|---|---|
| `Text` | text.dfy | `String.prototype.trim` and the regular-expression class `\s` |
| `EmailPattern` | email_pattern.dfy | the `validateEmail` regex `^[^\s@]+@[^\s@]+\.[^\s@]+$`, written as a string predicate |
| `Values` | values.dfy | user records, ids and their `toString`, `Array.prototype.find`, and the three answers an awaited HTTP helper can give (data, falsy data, a thrown error) |
| `AuthReducer` | auth_reducer.dfy | reducer/AuthReducer.js |
| `AuthContext` | auth_context.dfy | AuthContext.js |
| `AppContext` | app_context.dfy | AppContext.js |
| `SignUpReducer` | sign_up_reducer.dfy | reducer/SignUpReducer.js |
| `PasswordUpdateReducer` | password_update_reducer.dfy | reducer/PasswordUpdateReducer.js |
| `InputValidation` | input_validation.dfy | utils/InputValidation.js |
| `LoginScreen` | login_screen.dfy | screens/LoginScreen.js |
| `SignUpScreen` | sign_up_screen.dfy | screens/SignUpScreen.js |
| `PasswordUpdateScreen` | password_update_screen.dfy | screens/PasswordUpdateScreen.js |
| `HomeScreen` | home_screen.dfy | screens/HomeScreen.js |

Pure code becomes functions and lemmas: the reducers, trimming and the
e-mail pattern. Code that updates state in place becomes classes with
`modifies` clauses: the two providers and the home screen's `useState`
fields.

The handlers of the login, sign-up and password-update screens are methods
over values. A handler's closure reads the state of the render it was
created in. Its `dispatch` and `set*` calls only take effect later. So the
model applies every dispatched action, in source order, to that one
snapshot. The checks read the snapshot's fields, and the outcome is the
state after all the dispatches.

Each awaited HTTP call is an input to its handler:
- a `Response` for `getAPI` and `postAPI`;
- a flag saying whether `putAPI` throws.

Whitespace is the ECMAScript WhiteSpace and LineTerminator set. That set is
what `trim()` strips and what `\s` matches.

## Model

| member | source | states |
|---|---|---|
| Text.Trim | utils/InputValidation.js:2 | what trim() keeps is no longer than the input and, unless empty, begins and ends with a non-space |
| Text.TrimKeepsInfix | utils/InputValidation.js:2 | trim() keeps a contiguous infix of the input, and everything dropped before and after it is white space |
| Text.Utf16LengthOfBmp | utils/InputValidation.js:19 | `.length` counts UTF-16 code units: it equals the number of characters exactly when no character lies outside the Basic Multilingual Plane |
| Text.AstralCountsTwice | screens/LoginScreen.js:39 | three U+1F600 characters (three characters of the model) have `length` and `trim().length` 6 |
| Text.IsBlank | utils/InputValidation.js:1-3 | computes `s.trim().length === 0`, the test of validateEmptyUsername, validateEmptyEmail and validateEmptyPassword (lines 1-3, 10-16). Its properties are stated by Text.BlankIffAllSpace and EmailPattern.BlankIsNotValidEmail |
| Text.BlankIffAllSpace | utils/InputValidation.js:1-3 | `s.trim().length === 0` holds exactly when every character of s is white space |
| EmailPattern.IsValidEmail | utils/InputValidation.js:5-8 | computes validateEmail: split at the first '@', with a non-empty local part, no white space or second '@' in either part, and a '.' inside the domain. EmailPattern.ValidEmailMatchesPattern and EmailPattern.ValidEmailShape state what it accepts |
| EmailPattern.ValidEmailMatchesPattern | utils/InputValidation.js:5-8 | the hand-written matcher accepts exactly the strings of the form local@domain.tld in which no part is empty or holds white space or '@' (the regex's reading) |
| EmailPattern.ValidEmailShape | utils/InputValidation.js:5-8 | an accepted string has no white space, exactly one '@' with text before it, and a '.' after the '@' with text on both sides; any string with those properties is accepted |
| EmailPattern.BlankIsNotValidEmail | utils/InputValidation.js:5-12 | a blank string never matches the pattern |
| Values.IdToString | AuthContext.js:40 | `id.toString()` is non-empty for a numeric id and is the string itself for a string id |
| Values.FindIndex | screens/LoginScreen.js:52 | `find` returns the first element that satisfies the test, and returns nothing exactly when no element does |
| AuthReducer.Reduce | reducer/AuthReducer.js:13-28 | computes one step of the reducer: LOGIN installs the payload, LOGOUT clears the user, and any other type returns the state. Its properties are stated by the LoginSetsUser, LogoutClearsUser, LogoutIsIdempotent and UnknownActionIsIgnored lemmas, and its fold by FoldKeepsLastSession |
| AuthReducer.LoginSetsUser | reducer/AuthReducer.js:15-19 | LOGIN sets the user to the action's payload |
| AuthReducer.LogoutClearsUser | reducer/AuthReducer.js:20-24 | LOGOUT sets the user to null |
| AuthReducer.LogoutIsIdempotent | reducer/AuthReducer.js:20-24 | LOGOUT twice gives the same state as LOGOUT once |
| AuthReducer.UnknownActionIsIgnored | reducer/AuthReducer.js:25-26 | an action of any other type returns the state unchanged |
| AuthReducer.LastSessionAction | reducer/AuthReducer.js:13-28 | finds the last LOGIN or LOGOUT of a sequence, and finds none exactly when the sequence has neither |
| AuthReducer.FoldSnoc | reducer/AuthReducer.js:13-28 | dispatching one more action applies the reducer once more to the folded state |
| AuthReducer.FoldKeepsLastSession | reducer/AuthReducer.js:13-28 | after any sequence of actions the user is the payload of the last LOGIN with no LOGOUT after it, null when a LOGOUT comes after it, and the starting user when neither type occurs |
| AuthReducer.SessionFromInitialState | reducer/AuthReducer.js:8-10 | from `{user: null}`, a user is set only by a LOGIN with no LOGOUT or LOGIN after it, and the user is null when every LOGIN is followed by a LOGOUT |
| AuthContext.SessionKeysReadBack | AuthContext.js:40-49 | after login, getItem reads back the id's string under userId and the name under userName; after logout it reads null for userId and the earlier value for userName |
| AuthContext.RestoreNeedsBothKeys | AuthContext.js:17-24 | start-up restores a user exactly when userId and userName are both stored and non-empty, and that user is `{id: userId, name: userName}` |
| AuthContext.LoginThenRestore | AuthContext.js:35-42 | a restore over the store that login wrote gives `{id: toString(u.id), name: u.name}` when both strings are non-empty |
| AuthContext.LoginThenRestoreNumericId | AuthContext.js:40-41 | for a numeric id only a non-empty name is needed for that round trip |
| AuthContext.LogoutThenRestore | AuthContext.js:45-50 | a restore after logout gives no user, even though userName is still stored |
| AuthContext.WritesOnlySessionKeys | AuthContext.js:40-49 | login stores the id's string and the name under userId and userName; login and logout leave every other key as it was |
| AuthContext.LogoutStoreIdempotent | AuthContext.js:49 | a second logout leaves the store as the first one did |
| AuthContext.AuthProvider.constructor | AuthContext.js:11 | the provider starts with no user, over the device's storage |
| AuthContext.AuthProvider.Dispatch | AuthContext.js:11 | dispatch replaces the state by the reducer's result and leaves the store unchanged |
| AuthContext.AuthProvider.SetItem | AuthContext.js:40 | setItem writes one key and leaves the session state unchanged |
| AuthContext.AuthProvider.RemoveItem | AuthContext.js:49 | removeItem deletes one key and leaves the session state unchanged |
| AuthContext.AuthProvider.CheckAuthStatus | AuthContext.js:15-29 | LOGIN is dispatched with the stored id and name only when the store restores a user; a failing read is caught and changes nothing |
| AuthContext.AuthProvider.Login | AuthContext.js:35-42 | the user is set by a dispatch that comes before both writes; the store then holds the id's string under userId and the name under userName |
| AuthContext.AuthProvider.Logout | AuthContext.js:45-50 | the user is cleared by a dispatch and then only userId is removed from the store |
| AuthContext.RestartAfterLogin | AuthContext.js:17-42 | a new provider over the storage left by login restores that user, with its id in string form |
| AuthContext.RestartAfterLogout | AuthContext.js:15-50 | a new provider over the storage left by logout restores no user, whatever was stored before |
| AppContext.AppProvider.constructor | AppContext.js:8 | the initial user is null |
| AppContext.AppProvider.Login | AppContext.js:11-13 | login replaces the user by its argument |
| AppContext.AppProvider.Logout | AppContext.js:15-17 | logout sets the user to null |
| AppContext.LoginOverwrites | AppContext.js:11-13 | a second login overwrites the first one without a logout in between |
| AppContext.LoginThenLogout | AppContext.js:8-17 | login then logout gives back the initial null user, and a second logout changes nothing |
| SignUpReducer.Reduce | reducer/SignUpReducer.js:12-35 | computes one step of the sign-up form reducer: each SET_* case replaces one field, TOGGLE_SHOW_PASSWORD negates the flag, CLEAR_FORM returns the initial form, and the default returns the state. The SignUpReducer lemmas below state its properties |
| SignUpReducer.SetterWritesOnlyItsField | reducer/SignUpReducer.js:14-27 | each SET_* action writes its payload into its own field and leaves the other seven fields unchanged |
| SignUpReducer.LastSetterWins | reducer/SignUpReducer.js:14-25 | two SET_* actions on the same field have the effect of the second one alone |
| SignUpReducer.ToggleNegatesShowPassword | reducer/SignUpReducer.js:28-29 | TOGGLE_SHOW_PASSWORD negates showPassword and changes nothing else |
| SignUpReducer.ToggleTwiceRestores | reducer/SignUpReducer.js:28-29 | toggling twice gives back the original state |
| SignUpReducer.ClearFormResets | reducer/SignUpReducer.js:30-31 | CLEAR_FORM gives the initial state from any state, so it is idempotent |
| SignUpReducer.UnknownActionIsIgnored | reducer/SignUpReducer.js:32-33 | an action whose type is none of the switch's nine strings returns the state unchanged |
| SignUpReducer.InitialStateIsBlank | reducer/SignUpReducer.js:1-10 | every string field of the initial state is empty and both flags are false |
| PasswordUpdateReducer.Reduce | reducer/PasswordUpdateReducer.js:13-38 | computes one step of the password-update form reducer: each SET_* case replaces one field, each toggle negates its flag, CLEAR_FORM returns the initial form, and the default returns the state. The PasswordUpdateReducer lemmas below state its properties |
| PasswordUpdateReducer.SetterWritesOnlyItsField | reducer/PasswordUpdateReducer.js:15-28 | each SET_* action writes its payload into its own field and leaves the other eight fields unchanged |
| PasswordUpdateReducer.LastSetterWins | reducer/PasswordUpdateReducer.js:15-28 | two SET_* actions on the same field have the effect of the second one alone |
| PasswordUpdateReducer.TogglesAreIndependent | reducer/PasswordUpdateReducer.js:29-32 | each toggle negates only its own flag; each undoes itself, and the two commute |
| PasswordUpdateReducer.ClearFormResets | reducer/PasswordUpdateReducer.js:33-34 | CLEAR_FORM gives the initial state from any state, so it is idempotent |
| PasswordUpdateReducer.UnknownActionIsIgnored | reducer/PasswordUpdateReducer.js:35-36 | an action whose type is none of the switch's ten strings returns the state unchanged |
| PasswordUpdateReducer.InitialStateIsBlank | reducer/PasswordUpdateReducer.js:1-11 | all six strings of the initial state are empty and all three flags are false |
| PasswordUpdateReducer.AtMostOneFieldChanges | reducer/PasswordUpdateReducer.js:15-34 | no action other than CLEAR_FORM changes two different fields |
| InputValidation.IsShortPassword | utils/InputValidation.js:18-20 | computes validatePassword: the untrimmed `password.length`, in UTF-16 code units, is below 6. Text.Utf16LengthOfBmp relates that length to the number of characters |
| InputValidation.EveryEmailIsFlagged | utils/InputValidation.js:33-41 | every e-mail, blank or not, is caught by one of the two negated e-mail checks |
| InputValidation.ValidateForm | utils/InputValidation.js:24-53 | as written: isValid is false exactly when errors is non-empty, and the keys are among username, email and password; a username error exactly for a non-blank username; e-mail always flagged, with 'Please enter a valid Email ID' only when blank; a password entry unless the password is blank and shorter than 6 UTF-16 code units (untrimmed), the length message winning at 6 or more; never valid |
| InputValidation.RejectsWellFormedForm | utils/InputValidation.js:28-51 | validateForm rejects the form (alice, a@b.co, secret1), reporting that the username is required and that the password is too short |
| InputValidation.ValidateFormAsIntended | utils/InputValidation.js:24-53 | with the negations fixed, each message is recorded exactly when it is true, and the form is valid exactly when the username and password are non-blank, the e-mail matches and the password has at least 6 UTF-16 code units |
| InputValidation.IntendedAcceptsWellFormedForm | utils/InputValidation.js:24-53 | the corrected validator accepts (alice, a@b.co, secret1) with no errors |
| LoginScreen.HandleLogin | screens/LoginScreen.js:19-70 | email error: required iff blank, otherwise invalid iff the pattern fails, otherwise empty; password error: required iff blank, otherwise too short iff its trimmed length in UTF-16 code units is below 6, otherwise empty; valid iff both are empty; /users is fetched only when valid; the matched user is the first whose e-mail and password equal the untrimmed inputs; the two fields are cleared exactly when a user matched |
| LoginScreen.AcceptsAstralPassword | screens/LoginScreen.js:26-44 | the address a@b.co with a password of three U+1F600 characters sets neither error message and fetches /users: its trimmed length is 6 UTF-16 code units |
| SignUpScreen.CheckUsername | screens/SignUpScreen.js:38-41 | the username check writes 'Username is required' exactly for a blank username and touches no other field |
| SignUpScreen.CheckEmail | screens/SignUpScreen.js:43-49 | the e-mail check writes 'Email is required' for a blank e-mail and otherwise 'Please enter a valid email' when the pattern fails, and touches no other field |
| SignUpScreen.CheckPassword | screens/SignUpScreen.js:51-57 | the password check writes 'Password is required' for a blank password and otherwise the 6-character message when its trimmed length in UTF-16 code units is below 6, and touches no other field |
| SignUpScreen.CheckForm | screens/SignUpScreen.js:31-57 | after the three resets and checks, each error follows its rule, only the three errors differ from the snapshot, and valid holds iff all three are empty |
| SignUpScreen.HandleSignUp | screens/SignUpScreen.js:31-88 | the error rules and valid as in CheckForm; the POST body is exactly {username, email, password} from the state, sent only when valid; login gets the created record and the form is reset to the initial state only on a truthy result; otherwise only the errors change and the spinner ends off |
| PasswordUpdateScreen.UserEndpointInjective | screens/PasswordUpdateScreen.js:71 | two ids give the same `/users/${userId}` endpoint exactly when their string forms agree, so the PUT addresses the found user's record |
| PasswordUpdateScreen.CheckEmail | screens/PasswordUpdateScreen.js:30-36 | 'Email is required' for a blank e-mail, otherwise 'Please enter a valid email' when the pattern fails; no other field changes |
| PasswordUpdateScreen.CheckNewPassword | screens/PasswordUpdateScreen.js:39-45 | the required message for a blank new password, otherwise the 6-character message when its trimmed length in UTF-16 code units is below 6; no other field changes |
| PasswordUpdateScreen.CheckConfirm | screens/PasswordUpdateScreen.js:48-57 | the confirmation gets the required or the 6-character message by the same rule; only when it passes both are the untrimmed passwords compared, and a mismatch overwrites the new password's error |
| PasswordUpdateScreen.CheckForm | screens/PasswordUpdateScreen.js:21-59 | after the resets and checks, each error follows its rule, the mismatch message replacing the new password's own message; valid iff all three errors are empty, and then the two passwords are equal |
| PasswordUpdateScreen.Submit | screens/PasswordUpdateScreen.js:59-96 | the PUT is issued exactly when some user has the e-mail; it targets the first such user and sends that record with only its password replaced; the form is reset to the initial state unless the PUT throws; otherwise only the spinner flag changes, ending off |
| PasswordUpdateScreen.HandleUpdatePassword | screens/PasswordUpdateScreen.js:21-97 | the error rules and valid as in CheckForm; /users is fetched only when valid; the PUT as in Submit; the state is the initial form after a PUT that did not throw, and otherwise differs from the snapshot only in the errors and the spinner flag |
| HomeScreen.RequiredExactlyForWhiteSpace | screens/HomeScreen.js:23-36 | a field's message is recorded exactly when the value consists of white space only (the empty value included), and nothing is recorded otherwise |
| HomeScreen.HomeScreen.constructor | screens/HomeScreen.js:7-13 | every field starts as '' and the spinner as false |
| HomeScreen.HomeScreen.SetEmployeeName | screens/HomeScreen.js:80 | typing sets the employee name and nothing else |
| HomeScreen.HomeScreen.SetJobDesignation | screens/HomeScreen.js:91 | typing sets the job designation and nothing else |
| HomeScreen.HomeScreen.SetCompanyName | screens/HomeScreen.js:102 | typing sets the company name and nothing else |
| HomeScreen.HomeScreen.HandlePost | screens/HomeScreen.js:15-68 | each error is reset and then set exactly when its field is blank; valid iff all three fields are non-blank; the POST body is exactly {employeeName, jobDesignation, companyName}, sent only when valid; the fields are cleared only on a truthy response and kept otherwise; the spinner ends off after a request |
| HomeScreen.PostTwice | screens/HomeScreen.js:39-56 | a second press after a successful post sends nothing and reports all three fields as required, because the form was cleared |

## Left out

- HTTP: the axios instances, base URLs and timeouts of api/ApiConfig.js and api/ApiService.js are not part of this model. Each awaited call is an input to its handler.
- Asynchrony: each `await` is one sequential step, and overlapping handler runs or provider calls are not modelled.
- Rendering: the JSX trees, styles, `Alert`, `ActivityIndicator`, `console.*` and navigation calls are left out. Only the state they read or cause is kept.
- Spinner: the sign-up and password-update handlers dispatch SET_LOADING true and then false, and the home screen sets its `isLoading` field to true and back to false. Nothing is proved about what is shown while a request is pending.
- Login screen state: `LoginScreen.Form` leaves out the screen's `isLoading` and `showPassword`. The first only drives the spinner and the second only the eye icon, and neither takes part in what handleLogin decides.
- The other files: navigation/*.js, App.tsx, screens/SplashScreen.js, screens/ListScreen.js and screens/ProfileScreen.js are not part of this model.
- The `updateUserPassword` branch of screens/PasswordUpdateScreen.js:78-80 is left out. The provider never supplies that function (AuthContext.js:53), so the branch never runs.
- Storage failures: `setItem` and `removeItem` never fail in the model. Only a failing `getItem` during start-up is modelled, as `readFails`.
- `login(result)` at screens/SignUpScreen.js:72 passes the created record, which has a `username` but no `name`. SignUpScreen.HandleSignUp only reports that record as `loginWith`. The round trips in AuthContext take `UserData` with a non-empty name as their precondition.
- AuthReducer: the provider's state has the single field `user` (AuthContext.js:11). So "every other field is kept by the spread" holds trivially and is not stated separately.
- Strings are sequences of Unicode scalar values. `.length` is counted in UTF-16 code units, two for each character above U+FFFF. A JavaScript string holding an unpaired surrogate has no counterpart in the model.
- IdToString: numeric ids are integers. The exponent form JavaScript prints from 10^21 up and the fractional ids are not modelled; only the non-emptiness of a numeric id's string form is relied on.
- Whitespace: the model fixes the ECMAScript whitespace set. It does not follow the Unicode version of a particular JavaScript engine.
- JavaScript truthiness: the numbers 0 and NaN and other non-string values in storage or in responses are not modelled. A `Response` is either data, falsy data or a thrown error.
- Login screen: a falsy `getAPI` result makes `users.find` throw, which is caught. The model treats it like a failed request.

## Findings

| source | as written | input that shows it | evidently intended | confidence | as-written member | corrected member |
|---|---|---|---|---|---|---|
| utils/InputValidation.js:28-51 | four of the five checks are negated: 'Username is required' is recorded for a non-blank username, 'Email ID is required' for a non-blank e-mail, 'Password is required' for a non-blank password, and the length message for a password of 6 or more characters, so no form is ever valid | username "alice", e-mail "a@b.co", password "secret1" gives isValid false with 'Username is required', 'Email ID is required' and 'Password must have at least 6 characters' | each message is recorded when what it says is true, so a filled, well-formed form is valid | high (not executed) | InputValidation.RejectsWellFormedForm | InputValidation.ValidateFormAsIntended |
