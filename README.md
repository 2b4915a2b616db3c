# bailaconsara front end: shared state, forms and small state machines

The bailaconsara front end is an Angular web application for a salsa school.
It covers workshops (talleres), dance halls (salas), blog posts, user accounts,
a level test and a few slide shows. This project models the logic under its
templates and HTTP calls, and proves properties of that model in Dafny.

- **Shared state channels.** The auth, talleres, post and salas services keep
  a current value in a `BehaviorSubject`. A channel is modelled as a
  `map<string, Entry>` field of a class, so that a key can be present or
  absent. A publish `{...current, key: value}` is the map update
  `m[key := value]`. The post channel also edits its list: it prepends on
  create, replaces by id on update and filters by id on delete. The auth
  service is a small session state machine over `authSubject`,
  `adminLogueado`, `userLogueado` and `isUserAccountDeleted`.
- **Network calls** are parameters. Each is an `Outcome<T>`, either `Success`
  with the payload or `Failure` with the HTTP error. Requests made through
  the auth or talleres service come back as a `Reply<T>`, in which a failure
  carries the message built by `handleError`. A confirmation dialog's answer
  is a `DialogResult`, and only `Closed(true)` confirms.
- **Error messages.** `handleError` keeps the string values of an error body,
  joins them with a newline, and falls back to `Error Code: <status>\n<message>`.
- **Forms.** The Angular validators are predicates. `required` fails on the
  empty string. `pattern`, `minLength` and `email` pass on it. Each regular
  expression is written out as a predicate on characters: the phone, password,
  name and time patterns. The `getErrorMessage` chains are last-wins if-chains.
- **Components.** Each component whose handlers assign fields is a class with
  those fields, and each handler is a method whose `ensures` gives the whole
  new state. Where a handler's effect is worth reasoning about on its own, it
  is also a function on values, with lemmas. Examples are the enrolment flags,
  the level test table, the open-days list and the scroll latch.
- **Dates.** Dates are formatted from integers: DD-MM-YYYY for display and
  YYYY-MM-DD for submission. JavaScript's `Date` parsing is a function
  parameter `parse: string -> JsDate` that yields the day, month index and
  full year, or `Invalid`.

Two behaviours of the code are easy to misread, and the model follows the code in both:

- `getUserProfile` (src/app/services/auth.service.ts:164) merges the profile
  into `authSubject` only when `isNotLocked` is false. The role flags are
  raised whatever the lock state. A locked account therefore still becomes
  USER or ADMIN. An unlocked profile is never stored under `user`.
- The error body is an object when `typeof` says so, which includes arrays.
  Two empty string values join to `"\n"`, which is truthy, so the message is
  `"\n"`. The fallback is used only when there are no string values at all,
  or exactly one that is empty.

## Model

| member | source | states |
|---|---|---|
| Text.Pad2 | src/app/components/authentication/perfil-usuario/perfil-usuario.component.ts:185-186 | `('0' + n).slice(-2)` is always two digits |
| Text.Pad2Value | src/app/components/authentication/perfil-usuario/perfil-usuario.component.ts:185-186 | `('0' + n).slice(-2)` gives two digits that read back as `n` for `n < 100`, with a leading zero exactly below 10 |
| Text.NatToString | src/app/components/talleres/talleres.component.ts:131-132 | the decimal text of a natural is at least one digit, all digits, and a single digit exactly below 10 |
| Text.ParseNatOfNatToString | src/app/components/talleres/talleres.component.ts:131-132 | the decimal text of a year reads back as that year |
| Text.NatToStringInjective | src/app/components/talleres/talleres.component.ts:131-132 | different years print differently |
| Text.Split | src/app/components/authentication/perfil-usuario/perfil-usuario.component.ts:217 | `split('-')` always yields at least one piece |
| Text.SplitJoin | src/app/components/authentication/perfil-usuario/perfil-usuario.component.ts:217-219 | splitting a join of separator-free pieces on that separator gives the pieces back |
| Text.JoinEnds | src/app/services/auth.service.ts:212-214 | a join of no pieces is empty; otherwise it starts with the first piece and ends with the last |
| Text.Join | src/app/services/auth.service.ts:212-214 | `parts.join(sep)`: the separator between each pair of pieces (stated by `Join3`, `JoinEnds` and `JoinEmptyIff`) |
| Text.JoinEmptyIff | src/app/services/auth.service.ts:212-217 | a newline-join is empty iff there are no pieces or a single empty one |
| Text.Join3 | src/app/services/auth.service.ts:212-214 | joining three pieces puts the separator between each pair |
| Text.TrimStart | src/app/components/talleres/edit-taller/edit-taller.component.ts:462-465 | the result is a suffix of the input that drops only leading whitespace, and it does not start with whitespace |
| Text.TrimEnd | src/app/components/talleres/edit-taller/edit-taller.component.ts:462-465 | the result is a prefix of the input that drops only trailing whitespace, and it does not end with whitespace |
| Text.Trim | src/app/components/talleres/edit-taller/edit-taller.component.ts:462-465 | `trim()` returns a slice of the input with whitespace only outside it and none at either end |
| Text.ToUpper | src/app/services/salas-baile.service.ts:71 | `toUpperCase()` adds one character per sharp s, which becomes "SS"; without one, each character is upper-cased in place; the result holds no sharp s and nothing that upper-casing would change |
| Text.ToUpperIdempotent | src/app/services/salas-baile.service.ts:71 | upper-casing twice is upper-casing once, sharp s included |
| Text.ToUpperAppend | src/app/services/salas-baile.service.ts:71 | upper-casing a concatenation upper-cases each part |
| Text.Occurrences | src/app/services/salas-baile.service.ts:71 | a count of one character, zero exactly when it is absent, never above the length |
| Text.Utf16Length | src/app/components/authentication/auth/auth.component.ts:177 | JavaScript's `length`: between the number of characters and twice it, and equal to it exactly when every character is in the Basic Multilingual Plane |
| Text.ToLower | src/app/components/talleres/edit-taller/edit-taller.component.ts:462-465 | `toLowerCase()` keeps the length and maps each character |
| Text.Filter | src/app/components/authentication/perfil-usuario/perfil-usuario.component.ts:285-288 | the table filter `value.trim().toLowerCase()` is no longer than the input, has no whitespace at either end and no upper-case ASCII letter |
| Text.FilterIdempotent | src/app/components/talleres/edit-taller/edit-taller.component.ts:462-465 | filtering an already filtered text changes nothing |
| Lists.RemoveAll | src/app/components/niveles/niveles.component.ts:327-333 | `filter(x => x !== item)` leaves no `item`, keeps every other element and adds none, and is the identity when `item` is absent |
| Lists.RemoveAllNoDup | src/app/components/niveles/niveles.component.ts:327-333 | filtering keeps a list duplicate-free |
| Lists.RemoveAllLength | src/app/components/niveles/niveles.component.ts:327-333 | on a duplicate-free list holding the item, filtering removes exactly one element |
| Lists.RemoveAllAppend | src/app/components/niveles/niveles.component.ts:327-333 | filtering distributes over concatenation |
| Lists.IndexOf | src/app/components/salas/update-sala-form/update-sala-form.component.ts:209 | `indexOf`/`findIndex` gives -1 iff the element is absent, else the first position holding it |
| Lists.RemoveAt | src/app/components/salas/update-sala-form/update-sala-form.component.ts:185-190 | `splice(i, 1)` shortens the list by one and shifts the elements after `i` down |
| Lists.FormArrayRemoveAt | src/app/components/salas/create-sala-form/create-sala-form.component.ts:152-155 | `FormArray.removeAt(-1)` on a non-empty array removes the last control; an index in range removes that control; beyond the end nothing changes |
| Lists.FormArrayRemoveAtIndexOf | src/app/components/salas/create-sala-form/create-sala-form.component.ts:152-155 | `removeAt(findIndex(..))` removes the first match when there is one and otherwise the last control |
| Lists.RemoveFirstIsRemoveAll | src/app/components/salas/create-sala-form/create-sala-form.component.ts:149-155 | on a duplicate-free list, removing the first match equals filtering out every match |
| HttpErrors.PropValues | src/app/services/auth.service.ts:212 | `Object.values` lists the property values in order |
| HttpErrors.StringValues | src/app/services/auth.service.ts:212-213 | keeping the string values never lengthens the list, and a text is kept exactly when it is one of the string values |
| HttpErrors.StringValuesAppend | src/app/services/auth.service.ts:212-213 | the string filter distributes over concatenation |
| HttpErrors.StringValuesAllStrings | src/app/services/auth.service.ts:212-213 | a body of strings keeps every value in order |
| HttpErrors.StringValuesNoStrings | src/app/services/auth.service.ts:212-213 | a body with no strings keeps nothing |
| HttpErrors.HandleError | src/app/services/auth.service.ts:206-227 | a non-empty join of the body's string values is the message; otherwise it is `Error Code: <status>\n<message>` |
| HttpErrors.Handled | src/app/services/auth.service.ts:177 | `catchError(handleError)` passes a success through and turns a failure into the handled message |
| HttpErrors.BodyUsedIff | src/app/services/auth.service.ts:210-220 | the body decides the message iff it is an object or array with two or more string values, or one non-empty one |
| HttpErrors.FallbackWithoutStrings | src/app/services/auth.service.ts:223-226 | an object body without string values gives the fallback message |
| HttpErrors.NonObjectBodyIgnored | src/app/services/auth.service.ts:210-226 | a body that is not an object gives the fallback message |
| HttpErrors.NonStringValueIgnored | src/app/services/auth.service.ts:213 | inserting a non-string value anywhere does not change the kept strings |
| HttpErrors.NonStringPropertyIgnored | src/app/services/talleres.service.ts:191-199 | adding a non-string property to an object body does not change the message |
| HttpErrors.ValidationExample | src/app/services/talleres.service.ts:187-204 | a validation body with one string and one number yields that string alone |
| Storage.LocalStorage.GetItem | src/app/services/cookie-consent.service.ts:36 | `getItem` gives the stored value, or nothing for a missing key |
| Storage.LocalStorage.SetItem | src/app/services/cookie-consent.service.ts:47 | `setItem` writes one key and leaves the others |
| Storage.LocalStorage.Clear | src/app/services/auth.service.ts:192 | `clear` empties the storage |
| Auth.ProfileLoaded | src/app/services/auth.service.ts:162-176 | the profile is stored under `user` (other keys kept) only when `isNotLocked` is false; ADMIN raises `adminLogueado`, USER raises `userLogueado`, no flag is lowered and the deletion flag is kept |
| Auth.SignedOut | src/app/services/auth.service.ts:190-196 | the channel becomes `{}` and both role flags are false; the deletion flag is kept |
| Auth.AccountDeleted | src/app/services/auth.service.ts:289 | only `isUserAccountDeleted` changes, to true |
| Auth.ProfilesLoadedFlags | src/app/services/auth.service.ts:169-175 | after any series of profile fetches a role flag is up iff it was up before or some fetched profile had that role |
| Auth.HasRoleCons | src/app/services/auth.service.ts:169-175 | a series has a role iff its first profile or the rest has it |
| Auth.ProfilesLoadedAuth | src/app/services/auth.service.ts:165-166 | profile fetches never change a channel key other than `user` |
| Auth.UnlockedProfileRaisesRole | src/app/services/auth.service.ts:164-171 | an unlocked ADMIN profile is not stored in the channel but still raises `adminLogueado` |
| Auth.AuthService.constructor | src/app/services/auth.service.ts:43-87 | the session starts as `{user: null}` with every flag false |
| Auth.AuthService.GetUserProfile | src/app/services/auth.service.ts:150-179 | a fetched profile moves the session by `ProfileLoaded`; a failure changes nothing and carries the handled message |
| Auth.AuthService.SignOut | src/app/services/auth.service.ts:192-195 | storage is cleared and the session moves by `SignedOut` |
| Auth.AuthService.Logout | src/app/services/auth.service.ts:185-199 | success signs out and clears storage; failure changes neither |
| Auth.AuthService.ResetPassword | src/app/services/auth.service.ts:333-346 | success signs out and clears storage; failure changes neither |
| Auth.AuthService.EliminarUsuario | src/app/services/auth.service.ts:283-292 | success only raises `isUserAccountDeleted`; failure changes nothing |
| Auth.AuthService.SetUserLogueado | src/app/services/auth.service.ts:352-354 | only `userLogueado` changes |
| Auth.AuthService.Request | src/app/services/auth.service.ts:298-325 | the pass-through calls (`listarUsuarios`, `requestOTP`, `confirmOtp` and the others handled by `handleError`) return the handled outcome and change no state |
| CookieConsent.ShowConsentFor | src/app/services/cookie-consent.service.ts:34-40 | the banner is hidden iff the stored choice is exactly `accepted` |
| CookieConsent.Remember | src/app/services/cookie-consent.service.ts:47-56 | only the `cookieConsent` key is written; every other key keeps its value and none is added |
| CookieConsent.AcceptIdempotent | src/app/services/cookie-consent.service.ts:46-49 | accepting twice stores what accepting once stores |
| CookieConsent.RememberedChoiceRestored | src/app/services/cookie-consent.service.ts:36-56 | after accepting, a new service over the same storage hides the banner; after rejecting it shows it |
| CookieConsent.CookieConsentService.constructor | src/app/services/cookie-consent.service.ts:21-40 | the banner shows unless the storage holds `accepted` |
| CookieConsent.CookieConsentService.AcceptCookies | src/app/services/cookie-consent.service.ts:46-49 | stores `accepted` and hides the banner |
| CookieConsent.CookieConsentService.RejectCookies | src/app/services/cookie-consent.service.ts:55-58 | stores `rejected` and shows the banner |
| Talleres.InitialTallerState | src/app/services/talleres.service.ts:32-39 | the six form keys hold `''` and there is no `talleres` or `taller` key |
| Talleres.Answered | src/app/components/talleres/talleres.component.ts:108-115 | an answer overwrites its flag, a missing answer keeps it, and no other field changes |
| Talleres.TalleresService.constructor | src/app/services/talleres.service.ts:32-39 | the channel starts at the initial state |
| Talleres.TalleresService.ListTalleres | src/app/services/talleres.service.ts:70-81 | success publishes the list under `talleres` and keeps every other key; failure publishes nothing and returns the error unchanged |
| Talleres.TalleresService.GetTallerById | src/app/services/talleres.service.ts:88-99 | success publishes under `taller` and leaves the list; failure publishes nothing |
| Talleres.TalleresService.Request | src/app/services/talleres.service.ts:120-127 | the enrolment calls return the handled outcome and never publish |
| Dates.IntToString | src/app/components/talleres/talleres.component.ts:131-132 | a year prints as its digits, with a minus sign when negative |
| Dates.Display | src/app/components/talleres/talleres.component.ts:128-132 | `${day}-${month}-${year}` with day and month padded to two digits, `aN-aN-NaN` for an invalid date (stated by `DisplayShape` and `DisplayInvalidIff`) |
| Dates.DisplayInvalidIff | src/app/components/talleres/talleres.component.ts:128-132 | the text is `aN-aN-NaN` exactly for an invalid date |
| Dates.DisplayShape | src/app/components/talleres/talleres.component.ts:128-132 | the display text is two digits of day, a dash, two digits of month index + 1, a dash and the year |
| Dates.Piece | src/app/components/authentication/perfil-usuario/perfil-usuario.component.ts:217 | a missing piece of the destructured split reads as `undefined` (stated by `SubmissionWithoutDash`) |
| Dates.ToSubmission | src/app/components/authentication/perfil-usuario/perfil-usuario.component.ts:217-219 | the pieces split on `-` are written back as third-second-first |
| Dates.SplitDisplay | src/app/components/authentication/perfil-usuario/perfil-usuario.component.ts:217 | a display date with a year from 0 on splits into day, month and year |
| Dates.SubmissionOfDisplay | src/app/components/authentication/perfil-usuario/perfil-usuario.component.ts:217-219 | a display date becomes YYYY-MM-DD with the same year, month and day |
| Dates.DisplayInjective | src/app/components/talleres/talleres.component.ts:128-132 | two valid dates with a year from 0 on and a day and month index below 100 display differently unless equal |
| Dates.NegativeDisplay | src/app/components/talleres/talleres.component.ts:128-132 | a negative year prints with its sign, giving a third dash: the display form reads as four dash-separated pieces, the third empty |
| Dates.SubmissionOfNegativeYear | src/app/components/authentication/perfil-usuario/perfil-usuario.component.ts:217-219 | converting such a display form takes the empty piece as the year, so the year's digits are lost |
| Dates.SubmissionWithoutDash | src/app/components/authentication/perfil-usuario/perfil-usuario.component.ts:217-219 | a text without dashes becomes `undefined-undefined-<text>` |
| TalleresView.Reformatted | src/app/components/talleres/talleres.component.ts:125-133 | every element's `fecha` becomes its display form; the length and all other fields are kept |
| TalleresView.ReformattedShape | src/app/components/talleres/talleres.component.ts:128-130 | each rewritten date has a two-digit day, a two-digit month index + 1 and the year |
| TalleresView.WithAnswers | src/app/components/talleres/talleres.component.ts:108-115 | each listed workshop gets the answers for its own id and the user; the length is kept |
| TalleresView.ReformatDates | src/app/components/talleres/talleres.component.ts:124-132 | the loop leaves the array equal to the list with every date in display form |
| TalleresView.WriteAnswers | src/app/components/talleres/talleres.component.ts:108-115 | the loop leaves the array equal to the list with every workshop's answers written in |
| TalleresView.TalleresComponent.constructor | src/app/components/talleres/talleres.component.ts:49-55 | no admin, user 0, empty list |
| TalleresView.TalleresComponent.ListTalleres | src/app/components/talleres/talleres.component.ts:122-135 | the loop rewrites the very array the service published, so the channel's list shows the display dates |
| TalleresView.TalleresComponent.OnProfileAndState | src/app/components/talleres/talleres.component.ts:100-116 | `adminLogueado` is raised by an ADMIN profile and never lowered; the list is the channel's array or a fresh empty one; each workshop's flags are overwritten with its answers |
| EditTaller.SignInDone | src/app/components/talleres/edit-taller/edit-taller.component.ts:304-319 | sign-in stops loading, never sets `isUserSignedUp`, and on success takes the re-queried partner flag |
| EditTaller.SignOutDone | src/app/components/talleres/edit-taller/edit-taller.component.ts:336-349 | success lowers both flags, failure keeps them; loading stops |
| EditTaller.AddPartnerDone | src/app/components/talleres/edit-taller/edit-taller.component.ts:360-377 | success raises the partner flag and hides the input; `isUserSignedUp` is untouched |
| EditTaller.SignInCoupleDone | src/app/components/talleres/edit-taller/edit-taller.component.ts:379-401 | success raises both flags and hides the couple input; failure only stops loading |
| EditTaller.FailedEnrolmentKeepsFlags | src/app/components/talleres/edit-taller/edit-taller.component.ts:314-399 | every enrolment failure only stops loading |
| EditTaller.UpdateDto | src/app/components/talleres/edit-taller/edit-taller.component.ts:272-280 | the update sends the record's fields with the adjusted date and without `isSignedUp`/`hasPartner` |
| EditTaller.EditTallerComponent.constructor | src/app/components/talleres/edit-taller/edit-taller.component.ts:78-199 | the whole initial state: flags down, ids 0, the empty record, not editable, no table, no rows, no filter |
| EditTaller.EditTallerComponent.OnProfileAndParams | src/app/components/talleres/edit-taller/edit-taller.component.ts:216-253 | a failed profile changes nothing; otherwise the user and route ids are kept and a fetched record is stored with its own `isSignedUp`/`hasPartner` answers and published; every other field is unchanged |
| EditTaller.EditTallerComponent.HandleUpdateTaller | src/app/components/talleres/edit-taller/edit-taller.component.ts:258-291 | a date on which `toISOString` throws sends nothing and leaves `isLoading` true; otherwise `UpdateDto` is sent, success stops loading and an error leaves `isLoading` true; nothing else changes |
| EditTaller.EditTallerComponent.HandleSignInTaller | src/app/components/talleres/edit-taller/edit-taller.component.ts:304-319 | the flags move by `SignInDone` and every other field is unchanged |
| EditTaller.EditTallerComponent.HandleSignOutTaller | src/app/components/talleres/edit-taller/edit-taller.component.ts:326-353 | the call is made iff the dialog returned exactly `true`; then the flags move by `SignOutDone`, otherwise the state is unchanged; no other field moves |
| EditTaller.EditTallerComponent.HandleAddPartner | src/app/components/talleres/edit-taller/edit-taller.component.ts:360-377 | the flags move by `AddPartnerDone` and every other field is unchanged |
| EditTaller.EditTallerComponent.HandleSignInCouple | src/app/components/talleres/edit-taller/edit-taller.component.ts:379-401 | the flags move by `SignInCoupleDone` and every other field is unchanged |
| EditTaller.EditTallerComponent.HandleDeleteTaller | src/app/components/talleres/edit-taller/edit-taller.component.ts:403-428 | the call is made iff the dialog confirmed; then only loading stops, otherwise the state is unchanged |
| EditTaller.EditTallerComponent.HandleListUsersTaller | src/app/components/talleres/edit-taller/edit-taller.component.ts:430-442 | success stores the rows and toggles the table and nothing else; failure changes nothing |
| EditTaller.EditTallerComponent.IsUserSuscribed | src/app/components/talleres/edit-taller/edit-taller.component.ts:444-450 | an answer sets `isUserSignedUp` and nothing else; no answer changes nothing |
| EditTaller.EditTallerComponent.UserHasPartner | src/app/components/talleres/edit-taller/edit-taller.component.ts:453-459 | an answer sets `isUserHasPartner` and nothing else; no answer changes nothing |
| EditTaller.EditTallerComponent.ApplyFilter | src/app/components/talleres/edit-taller/edit-taller.component.ts:462-465 | the filter becomes the trimmed, lower-cased input and nothing else changes |
| CreateTaller.HoraMatches | src/app/components/talleres/create-taller/create-taller.component.ts:72 | the `hora` pattern character by character: hours 00–19 or 20–23, a colon, minutes 00–59 (proved equal to the HH:MM reading by `HoraMatchesIff`) |
| CreateTaller.TimeMatches | src/app/components/talleres/create-taller/create-taller.component.ts:70-73 | every time from 00:00 to 23:59 matches the hora pattern |
| CreateTaller.MatchIsTime | src/app/components/talleres/create-taller/create-taller.component.ts:70-73 | every text the pattern accepts is such a time |
| CreateTaller.HoraMatchesIff | src/app/components/talleres/create-taller/create-taller.component.ts:70-73 | hora is accepted iff it is HH:MM with HH in 00–23 and MM in 00–59 |
| CreateTaller.FormValid | src/app/components/talleres/create-taller/create-taller.component.ts:65-75 | the form is valid iff every field is non-empty and hora matches |
| CreateTaller.ErrorMessage | src/app/components/talleres/create-taller/create-taller.component.ts:149-158 | a pattern error wins over a required error; no error gives `''` |
| CreateTaller.HoraMessage | src/app/components/talleres/create-taller/create-taller.component.ts:70-158 | the hora control reports required when empty, the format when it does not match, and nothing otherwise |
| CreateTaller.CreateTallerComponent.constructor | src/app/components/talleres/create-taller/create-taller.component.ts:65-75 | the empty form is invalid |
| CreateTaller.CreateTallerComponent.HandleCreateTaller | src/app/components/talleres/create-taller/create-taller.component.ts:105-135 | an invalid form sends nothing and keeps the form; a valid one whose date makes `toISOString` throw sends nothing either; otherwise the date is adjusted and the form is sent |
| Niveles.TestResult | src/app/components/niveles/niveles.component.ts:208-257 | the test answer: no selection or none of the three steps gives PRINCIPIANTES, all three AVANZADO, Copa without Figuras complejas INTERMEDIO, and no branch fires iff Cross con giro and Figuras complejas are chosen without Copa |
| Niveles.LevelResult | src/app/components/niveles/niveles.component.ts:207-312 | the table per level: no message for an unknown level or the test gap; no selection gives the no-selection message; principiantes praises more than three steps and encourages one to three; intermedio and avanzado praise iff both key steps or all five are chosen, and otherwise give their own missing-steps message; kizomba reassures iff "No tengo ni idea" is ticked and otherwise gives the monthly-start message |
| Niveles.Toggle | src/app/components/niveles/niveles.component.ts:327-333 | an absent item is appended; a present one is removed everywhere and nothing else is lost |
| Niveles.ToggleTwice | src/app/components/niveles/niveles.component.ts:327-333 | toggling an absent item twice restores the list |
| Niveles.ToggleNoDup | src/app/components/niveles/niveles.component.ts:327-333 | toggling keeps the list duplicate-free |
| Niveles.NivelesComponent.constructor | src/app/components/niveles/niveles.component.ts:64-92 | nothing selected, no result shown |
| Niveles.NivelesComponent.ActivarResultado | src/app/components/niveles/niveles.component.ts:201-313 | the result is always shown; `resultado` takes the table's message, or keeps its value when no branch fires |
| Niveles.NivelesComponent.CerrarResultado | src/app/components/niveles/niveles.component.ts:318-321 | hides the result and clears it |
| Niveles.NivelesComponent.PushSelectedItem | src/app/components/niveles/niveles.component.ts:327-333 | the list moves by `Toggle` |
| Niveles.NivelesComponent.ResetItemList | src/app/components/niveles/niveles.component.ts:338-341 | empties the list, hides and clears the result |
| SalasBaile.InitialSalaState | src/app/services/salas-baile.service.ts:29-39 | empty name, town and address, one placeholder day, no `salas` or `sala` key |
| SalasBaile.SalasByDiaPath | src/app/services/salas-baile.service.ts:71 | the path is `salas/horarios/` followed by the upper-cased day, one character longer per sharp s; a day without one is upper-cased character by character |
| SalasBaile.ViernesPath | src/app/services/salas-baile.service.ts:71 | `viernes` is requested as `VIERNES` |
| SalasBaile.UpperPathIdempotent | src/app/services/salas-baile.service.ts:71 | an already upper-cased day gives the same path |
| SalasBaile.SalasBaileService.constructor | src/app/services/salas-baile.service.ts:29-39 | the channel starts at the initial state |
| SalasBaile.SalasBaileService.GetSalasByDia | src/app/services/salas-baile.service.ts:69-78 | requests the upper-cased path; success publishes under `salas` only |
| SalasBaile.SalasBaileService.GetSalaById | src/app/services/salas-baile.service.ts:85-95 | success publishes under `sala` only |
| SalasBaile.SalasBaileService.Request | src/app/services/salas-baile.service.ts:102-131 | create, update and delete return their outcome and never touch the channel |
| UpdateSala.Days | src/app/components/salas/update-sala-form/update-sala-form.component.ts:137-139 | the days of the entries, in order |
| UpdateSala.DayIndex | src/app/components/salas/update-sala-form/update-sala-form.component.ts:183-185 | `findIndex` gives -1 iff no entry has the day, else the first entry that has it |
| UpdateSala.IsDaySelected | src/app/components/salas/update-sala-form/update-sala-form.component.ts:137-139 | true iff some entry has the day |
| UpdateSala.IsGenreSelected | src/app/components/salas/update-sala-form/update-sala-form.component.ts:147-152 | true iff the first entry for the day lists the genre; false without an entry |
| UpdateSala.DaySelected | src/app/components/salas/update-sala-form/update-sala-form.component.ts:180-191 | checking appends an empty entry even for a present day; unchecking removes only the first entry for the day, or nothing |
| UpdateSala.GenresSelected | src/app/components/salas/update-sala-form/update-sala-form.component.ts:204-213 | checking adds an absent genre at the end; unchecking removes its first occurrence |
| UpdateSala.GenreSelected | src/app/components/salas/update-sala-form/update-sala-form.component.ts:199-215 | only the first entry for the day changes; without an entry nothing does |
| UpdateSala.RemoveAtNoDup | src/app/components/salas/update-sala-form/update-sala-form.component.ts:209-212 | `splice` keeps a list duplicate-free |
| UpdateSala.GenreSelectedNoDup | src/app/components/salas/update-sala-form/update-sala-form.component.ts:204-213 | genre lists stay duplicate-free |
| UpdateSala.DaySelectedUndo | src/app/components/salas/update-sala-form/update-sala-form.component.ts:180-191 | checking then unchecking an absent day restores the list |
| UpdateSala.GenreSelectedUndo | src/app/components/salas/update-sala-form/update-sala-form.component.ts:199-215 | checking then unchecking an absent genre restores the list |
| UpdateSala.UpdateSalaForm.constructor | src/app/components/salas/update-sala-form/update-sala-form.component.ts:42-59 | the form starts from the placeholder hall (empty texts, one empty day) with id 0, and keeps the dialog's id |
| UpdateSala.UpdateSalaForm.OnInit | src/app/components/salas/update-sala-form/update-sala-form.component.ts:108-111 | the dialog's id becomes `salaId`; the hall is fetched for it, so only a success replaces the placeholder and publishes the hall |
| UpdateSala.UpdateSalaForm.GetSalaData | src/app/components/salas/update-sala-form/update-sala-form.component.ts:124-130 | success takes the fetched hall and the service publishes it; failure keeps both; the id is unchanged |
| UpdateSala.UpdateSalaForm.OnDaySelected | src/app/components/salas/update-sala-form/update-sala-form.component.ts:180-191 | the open days move by `DaySelected`; the id is unchanged |
| UpdateSala.UpdateSalaForm.OnGenreSelected | src/app/components/salas/update-sala-form/update-sala-form.component.ts:199-215 | the open days move by `GenreSelected`; the id is unchanged |
| UpdateSala.UpdateSalaForm.OnSubmit | src/app/components/salas/update-sala-form/update-sala-form.component.ts:157-175 | sends the hall under the kept id; the dialog closes with the answer iff the update succeeded |
| CreateSala.GenresToggled | src/app/components/salas/create-sala-form/create-sala-form.component.ts:176-183 | checking pushes the genre with no duplicate check; unchecking removes the first match, or the last genre when it is absent |
| CreateSala.FormValid | src/app/components/salas/create-sala-form/create-sala-form.component.ts:98-103 | valid iff name, town and address are non-empty |
| CreateSala.ErrorMessage | src/app/components/salas/create-sala-form/create-sala-form.component.ts:123-125 | the required message iff the value is empty, else `''` |
| CreateSala.DayToggled | src/app/components/salas/create-sala-form/create-sala-form.component.ts:134-157 | checking appends the day and an empty group; unchecking filters the day out and removes its first group, or the last group when it has none |
| CreateSala.DaysRemoveAt | src/app/components/salas/create-sala-form/create-sala-form.component.ts:152-155 | removing a group removes its day from the day list |
| CreateSala.DayToggledInSync | src/app/components/salas/create-sala-form/create-sala-form.component.ts:140-156 | checking an absent day or unchecking a present one keeps the open days equal to the groups' days and duplicate-free |
| CreateSala.UntickAbsentDayDropsLast | src/app/components/salas/create-sala-form/create-sala-form.component.ts:149-155 | unchecking a day that is not open drops the last group and breaks that agreement |
| CreateSala.CreateSalaForm.constructor | src/app/components/salas/create-sala-form/create-sala-form.component.ts:91-103 | no open days, an empty invalid form, the two lists in agreement |
| CreateSala.CreateSalaForm.OnDaySelected | src/app/components/salas/create-sala-form/create-sala-form.component.ts:134-157 | the open days and the groups move by `DayToggled`; the text fields are kept |
| CreateSala.CreateSalaForm.OnGenreSelected | src/app/components/salas/create-sala-form/create-sala-form.component.ts:166-184 | without a group for the day the handler fails and nothing changes; otherwise only that group's genres move by `GenresToggled` |
| CreateSala.CreateSalaForm.HandleAddSala | src/app/components/salas/create-sala-form/create-sala-form.component.ts:190-205 | the form is sent iff it is valid; the dialog closes iff it was sent and accepted |
| PostService.InitialPostState | src/app/services/post.service.ts:29-32 | `{posts: [], newPost: null}` |
| PostService.Prepended | src/app/services/post.service.ts:87-93 | the new post comes first and the old list follows unchanged |
| PostService.Replaced | src/app/services/post.service.ts:118-124 | every post with the answer's id is replaced; the length and all other posts are kept |
| PostService.Removed | src/app/services/post.service.ts:139-145 | no post with the id is left, and every other post is kept |
| PostService.RemovedAppend | src/app/services/post.service.ts:139-145 | removal distributes over concatenation, so relative order is kept |
| PostService.RemovedAbsent | src/app/services/post.service.ts:139-145 | removing an absent id changes nothing |
| PostService.CreateThenDelete | src/app/services/post.service.ts:87-145 | deleting a freshly created post with a new id restores the list |
| PostService.ReplacedThenRemoved | src/app/services/post.service.ts:118-145 | replacing is idempotent and does not change what a deletion by that id leaves |
| PostService.CreateFormData | src/app/services/post.service.ts:80-82 | the create form always holds the image part and the data part |
| PostService.UpdateFormData | src/app/services/post.service.ts:108-113 | the update form holds the image part iff an image is given, and always ends with the data part |
| PostService.PostsService.constructor | src/app/services/post.service.ts:29-32 | the channel starts at the initial state with no posts |
| PostService.PostsService.GetPosts | src/app/services/post.service.ts:62-69 | success replaces `posts` and keeps the other keys |
| PostService.PostsService.CreatePost | src/app/services/post.service.ts:77-98 | sends the create form; success prepends the new post |
| PostService.PostsService.UpdatePost | src/app/services/post.service.ts:106-127 | sends the update form; success replaces by id |
| PostService.PostsService.DeletePost | src/app/services/post.service.ts:134-147 | success removes by id |
| PostService.PostsService.GetPost | src/app/services/post.service.ts:154-189 | by id, slug or title, success sets only `post` and the list is unchanged |
| Forms.RequiredError | src/app/components/authentication/auth/auth.component.ts:176 | `Validators.required` fails exactly on the empty value |
| Forms.PatternError | src/app/components/authentication/auth/auth.component.ts:186-187 | `Validators.pattern` fails exactly on a non-empty value the expression does not match |
| Forms.MinLengthError | src/app/components/authentication/auth/auth.component.ts:177 | `Validators.minLength(n)` fails exactly on a non-empty value whose `length`, counted in UTF-16 code units, is below `n` |
| Forms.EmailError | src/app/components/authentication/auth/auth.component.ts:190-191 | `Validators.email` fails exactly on a non-empty value that is not an address |
| AuthComponent.NameChar | src/app/components/authentication/auth/auth.component.ts:178 | a letter of the name pattern: a–z, A–Z and U+00C0 to U+00FF, which already holds ñ and Ñ |
| AuthComponent.Words | src/app/components/authentication/auth/auth.component.ts:178 | the name pattern as a reference definition: name letters and single spaces, not empty, no space at either end (matched by the automaton in `NombreScanIff`) |
| AuthComponent.TelefonoMatches | src/app/components/authentication/auth/auth.component.ts:187 | `^[0-9]{6,15}$`: six to fifteen digits and nothing else |
| AuthComponent.PasswordMatches | src/app/components/authentication/auth/auth.component.ts:195 | at least eight UTF-16 code units (the expression has no `u` flag), no white space, and a digit, a lower-case letter, a capital and one of the listed symbols |
| AuthComponent.NombreScanIff | src/app/components/authentication/auth/auth.component.ts:175-178 | the name automaton accepts iff the text is letters and single inner spaces, with no space at either end |
| AuthComponent.NombreMatches | src/app/components/authentication/auth/auth.component.ts:175-178 | the name pattern holds iff the text is letter-words separated by single spaces |
| AuthComponent.ErrorMessage | src/app/components/authentication/auth/auth.component.ts:310-325 | last-wins priority email > minlength > pattern > required; `''` iff there is no error |
| AuthComponent.NombreMessage | src/app/components/authentication/auth/auth.component.ts:175-325 | the name control reports required, too short (one UTF-16 code unit), bad format or nothing, in that order |
| AuthComponent.AstralCharactersCountTwice | src/app/components/authentication/auth/auth.component.ts:177-195 | a character above U+FFFF counts twice: `"Aa1!😀😀"` passes the password pattern, and a name of one such character is reported as bad format, not too short |
| AuthComponent.RegisterValid | src/app/components/authentication/auth/auth.component.ts:174-200 | the register form is valid iff every control's validators pass |
| AuthComponent.LoginValid | src/app/components/authentication/auth/auth.component.ts:206-214 | the login form is valid iff the e-mail is a non-empty address and the password is non-empty |
| AuthComponent.PrefixedPhoneFailsPattern | src/app/components/authentication/auth/auth.component.ts:185-259 | a phone with its `+` country prefix no longer matches the phone pattern |
| AuthComponent.JsYear | src/app/components/authentication/auth/auth.component.ts:70 | `new Date(y, m, d)` reads years 0–99 as 1900 + y |
| AuthComponent.MinBeforeMax | src/app/components/authentication/auth/auth.component.ts:63-79 | from year 170 on the earliest birth date is 1 January 70 years ago, the latest is 31 December 13 years ago, and the first is earlier; in year 120 it is not |
| AuthComponent.PreparedRegistration | src/app/components/authentication/auth/auth.component.ts:247-259 | None exactly when there is a date and `toISOString` throws on it; otherwise the phone gains the country code, a date is replaced by its adjusted form and no other field changes |
| AuthComponent.AuthPage.constructor | src/app/components/authentication/auth/auth.component.ts:87-214 | the whole initial state: login panel, not loading, password hidden, prefix `+34`, empty forms |
| AuthComponent.AuthPage.TogglePanel | src/app/components/authentication/auth/auth.component.ts:292-294 | flips `isRegister` and nothing else |
| AuthComponent.AuthPage.HandleLogin | src/app/components/authentication/auth/auth.component.ts:221-237 | an invalid form sends nothing and changes nothing; a valid one is sent and loading ends; success stores the token, fetches the profile and navigates; failure changes no session state |
| AuthComponent.AuthPage.HandleRegister | src/app/components/authentication/auth/auth.component.ts:244-271 | when `toISOString` throws nothing is sent and `isLoading` stays true; otherwise the form from `PreparedRegistration` is kept and sent with no validity check, and loading ends; nothing else changes |
| PerfilUsuario.ForDisplay | src/app/components/authentication/perfil-usuario/perfil-usuario.component.ts:184-189 | only the birth date changes, to its display form |
| PerfilUsuario.UpdateRoundTrip | src/app/components/authentication/perfil-usuario/perfil-usuario.component.ts:217-229 | a shown date is sent as YYYY-MM-DD with the same day, month and year, and is shown as before once read back |
| PerfilUsuario.PerfilUsuarioComponent.constructor | src/app/components/authentication/perfil-usuario/perfil-usuario.component.ts:84-160 | the whole initial state: logged out, not loading, the empty record, no users, not editable, no role flags, no table, no filter |
| PerfilUsuario.PerfilUsuarioComponent.OnProfile | src/app/components/authentication/perfil-usuario/perfil-usuario.component.ts:183-195 | a failure changes nothing; a profile is shown with its display date, `lider` raises `isLider`, any other role `isFollower`, and every other field is unchanged |
| PerfilUsuario.PerfilUsuarioComponent.OnAdminLogueado | src/app/components/authentication/perfil-usuario/perfil-usuario.component.ts:198-201 | an administrator state sets both login flags and nothing else |
| PerfilUsuario.PerfilUsuarioComponent.OnUserLogueado | src/app/components/authentication/perfil-usuario/perfil-usuario.component.ts:203-205 | sets `userLogueado` and nothing else |
| PerfilUsuario.PerfilUsuarioComponent.HandleUpdateUser | src/app/components/authentication/perfil-usuario/perfil-usuario.component.ts:214-244 | sends the record with its YYYY-MM-DD date; success shows the answer's date, closes the form and stops loading; an error keeps the YYYY-MM-DD date and stops loading; nothing else changes |
| PerfilUsuario.PerfilUsuarioComponent.HandleCloseForm | src/app/components/authentication/perfil-usuario/perfil-usuario.component.ts:251-253 | sets `isNotEditable` and nothing else |
| PerfilUsuario.PerfilUsuarioComponent.HandleEditUser | src/app/components/authentication/perfil-usuario/perfil-usuario.component.ts:260-262 | clears `isNotEditable` and nothing else |
| PerfilUsuario.PerfilUsuarioComponent.SelectUser | src/app/components/authentication/perfil-usuario/perfil-usuario.component.ts:270-277 | the chosen row is shown with its display date; the model keeps `users` unchanged, without the shared row object (see Left out) |
| PerfilUsuario.PerfilUsuarioComponent.ApplyFilter | src/app/components/authentication/perfil-usuario/perfil-usuario.component.ts:285-288 | the filter becomes the trimmed, lower-cased input and nothing else changes |
| PerfilUsuario.PerfilUsuarioComponent.OnAccountDeleted | src/app/components/authentication/perfil-usuario/perfil-usuario.component.ts:364-376 | a deleted account resets the record to the empty one with id 0 and nothing else; `false` changes nothing |
| PerfilUsuario.PerfilUsuarioComponent.HandleListUsers | src/app/components/authentication/perfil-usuario/perfil-usuario.component.ts:385-396 | success stores the users and toggles the table and nothing else; failure changes nothing |
| ForgotPassword.EmailParam | src/app/components/authentication/forgot-password/forgot-password.component.ts:109-111 | the `email` query parameter, or `''` when absent |
| ForgotPassword.ForgotPasswordComponent.constructor | src/app/components/authentication/forgot-password/forgot-password.component.ts:49-87 | the whole initial state: asks for a code first, no new-password inputs, password hidden, not loading, no address, empty passwords |
| ForgotPassword.ForgotPasswordComponent.OnQueryParams | src/app/components/authentication/forgot-password/forgot-password.component.ts:107-112 | the address comes from the query parameter and nothing else changes |
| ForgotPassword.ForgotPasswordComponent.ReRequestOtp | src/app/components/authentication/forgot-password/forgot-password.component.ts:119-121 | toggles `requestOtp` and nothing else |
| ForgotPassword.ForgotPasswordComponent.HandleRerequestOtp | src/app/components/authentication/forgot-password/forgot-password.component.ts:129-148 | success clears `requestOtp` and stops loading; an error only stops loading |
| ForgotPassword.ForgotPasswordComponent.HandleConfirmOtp | src/app/components/authentication/forgot-password/forgot-password.component.ts:157-168 | stores the address first; only success also opens the new-password inputs; nothing else changes |
| ForgotPassword.ForgotPasswordComponent.HandleResetPassword | src/app/components/authentication/forgot-password/forgot-password.component.ts:177-200 | different passwords send nothing, report the mismatch and change no state; equal ones are stored and sent for the kept address, success signs out and clears storage, and no other field changes |
| CreatePostForm.FormValid | src/app/components/posts/create-post-form/create-post-form.component.ts:140-155 | valid iff the seven required fields are non-empty |
| CreatePostForm.CreatePostFormComponent.constructor | src/app/components/posts/create-post-form/create-post-form.component.ts:67-155 | the whole initial state: not loading, not an administrator, no file, the empty post and an invalid empty form |
| CreatePostForm.CreatePostFormComponent.OnAdminLogueado | src/app/components/posts/create-post-form/create-post-form.component.ts:175-179 | the administrator flag follows `adminLogueado$` and nothing else changes |
| CreatePostForm.CreatePostFormComponent.GetFile | src/app/components/posts/create-post-form/create-post-form.component.ts:185-196 | a chosen file becomes the cover image and nothing else changes; cancelling changes nothing |
| CreatePostForm.CreatePostFormComponent.OnSubmit | src/app/components/posts/create-post-form/create-post-form.component.ts:203-239 | an invalid form changes nothing; without an image the user is told to add one and nothing changes; otherwise the form value is sent with the image, only loading changes (it ends after the answer), and success prepends the post |
| Carousels.Next | src/app/components/carousel/carousel.component.ts:118-124 | for an index in range, one step forward stays in range and is `(i + 1) % n` |
| Carousels.Prev | src/app/components/carousel/carousel.component.ts:107-113 | for an index in range, one step back stays in range and is `(i + n - 1) % n` |
| Carousels.PrevNextInverse | src/app/components/reviews/reviews.component.ts:99-117 | a step back undoes a step forward and the other way round |
| Carousels.AdvanceWrap | src/app/components/video-carrusel/video-carrusel.component.ts:193-199 | up to `n` steps forward land on `i + k`, less `n` once the end is passed |
| Carousels.FullTurn | src/app/components/carousel/carousel.component.ts:118-124 | `n` steps forward return to the start |
| Carousels.EmptyListPrev | src/app/components/carousel/carousel.component.ts:108-109 | with an empty list a step back from 0 gives -1 |
| Carousels.Carousel.constructor | src/app/components/carousel/carousel.component.ts:39-74 | starts on the first image |
| Carousels.Carousel.SelectImagen | src/app/components/carousel/carousel.component.ts:98-102 | takes the index and opens the dialog on that image |
| Carousels.Carousel.IrAnterior | src/app/components/carousel/carousel.component.ts:107-113 | the index moves by `Prev` |
| Carousels.Carousel.IrSiguiente | src/app/components/carousel/carousel.component.ts:118-124 | the index moves by `Next` |
| Carousels.Reviews.constructor | src/app/components/reviews/reviews.component.ts:40-75 | starts on the first review |
| Carousels.Reviews.SelectImagen | src/app/components/reviews/reviews.component.ts:91-93 | sets the index and nothing else |
| Carousels.Reviews.IrAnterior | src/app/components/reviews/reviews.component.ts:99-105 | the index moves by `Prev` |
| Carousels.Reviews.IrSiguiente | src/app/components/reviews/reviews.component.ts:111-117 | the index moves by `Next` |
| Carousels.VideoCarrusel.constructor | src/app/components/video-carrusel/video-carrusel.component.ts:61-96 | starts on the first video |
| Carousels.VideoCarrusel.SelectImagen | src/app/components/video-carrusel/video-carrusel.component.ts:164-168 | takes the index and opens the dialog with that video's source and description |
| Carousels.VideoCarrusel.IrSiguiente | src/app/components/video-carrusel/video-carrusel.component.ts:193-199 | the index moves by `Next` |
| Carousels.VideoCarrusel.IrAnterior | src/app/components/video-carrusel/video-carrusel.component.ts:204-210 | the index moves by `Prev` |
| Slant.InViewport | src/app/components/slant/slant.component.ts:72-73 | a banner is in view when its top is at or below the window top and its bottom at or above the window bottom |
| Slant.Scrolled | src/app/components/slant/slant.component.ts:78-87 | a banner in view raises both flags and the latch; otherwise the flags drop only while the latch is down |
| Slant.ScrollsKeepLatch | src/app/components/slant/slant.component.ts:42-87 | over any series of scrolls the two flags stay equal, a raised latch keeps them up, and one scroll with a banner in view raises the latch for good |
| Slant.AnySlantInViewport | src/app/components/slant/slant.component.ts:64-77 | the `forEach` finds a banner in view iff some banner has top ≥ 0 and bottom ≤ the window height |
| Slant.SlantComponent.constructor | src/app/components/slant/slant.component.ts:42-52 | all three flags start false |
| Slant.SlantComponent.OnWindowScroll | src/app/components/slant/slant.component.ts:60-88 | the flags move by `Scrolled` on the loop's answer and stay consistent |

## Left out

- HTTP transport is not modelled: URLs other than the salas day path, headers, bearer tokens and `HttpClient`. Each call is an outcome parameter.
- RxJS ordering is not modelled: `combineLatest`, the order of subscriptions and the dialog `afterClosed` wiring. Each callback is a method called with the values it receives.
- Snack-bar notifications, router navigation and dialog opening have no effect in the model. Where a handler's result depends on them, a returned value stands for them (`navigated`, `closedWith`, `notice`).
- JavaScript `Date` parsing is left out and is the `parse` parameter. The shift by `getTimezoneOffset` and the `toISOString` cut in edit-taller, create-taller and `handleRegister` are the `adjust` and `adjustedFecha` parameters; their None value stands for the `RangeError` that `toISOString` throws on an invalid date, which stops the handler before its request. Also left out are `toLocaleDateString` in `onDateChange` and moment's conversion of `created_at` in the post form.
- `JSON.stringify` of the post form is the `json` parameter.
- The `FileReader` preview, `setInterval` auto-slide, `window.scrollTo` and the DOM query in `onWindowScroll` are left out. The slant rectangles and the window height are parameters.
- Regular expressions are written as predicates on characters.
- Text.ToUpper: only Basic Latin and Latin-1 are upper-cased, with the sharp s becoming "SS"; every character beyond U+00FF is kept as it is, although `toUpperCase` changes many of them, because the full Unicode case tables are not modelled.
- Text.ToLower: only Basic Latin and Latin-1 capitals are lower-cased; every character beyond U+00FF is kept as it is, for the same reason.
- Auth.AuthService.Request: `login`, `register`, `updateUser`, `listarUsuarios`, `requestOTP`, `confirmOtp`, `deshabilitarUsuario` and `habilitarUsuario` change no state and pass their errors through `handleError`, so they are all this one pass-through.
- `changeUserRole` (src/app/services/auth.service.ts:265-276) has no `catchError`, so its failure reaches the caller as the raw `HttpErrorResponse`, not as a message. Its only caller, `handleChangeUserRole`, is not modelled (see below), so neither is the call.
- Talleres.TalleresService.Request: `createTaller`, `addPartnerTaller`, `sigOutTaller`, `signInCoupleTaller`, `listUsersTaller`, `deleteTaller`, `updateTaller`, `isUserSuscribed` and `isUserHasAPartner` are this one pass-through. The observable that `signInUserTaller` builds and never subscribes to is not modelled.
- PerfilUsuario: `handleDeshabilitarUsuario`, `handleHabilitarUsuario`, `handleChangeUserRole` and `handleForgotPassword` only call the service and show a notification or navigate, so they are not modelled.
- PerfilUsuario.EmptyUser: the reset record has `password: ''` and no role, while the model's profile record has a role and a lock flag and no password. The reset gives role `''` and lock flag false.
- Aliasing is not modelled in four places, each modelled as a value copy: `user` in the profile page with the object from `authSubject`, `user` in the profile page with the table row chosen by `selectUser`, the edit-taller `taller` with the channel's record, and the update-sala `sala` with the channel's record. The shared array of talleres.component is modelled as an array.
- PerfilUsuario.PerfilUsuarioComponent.SelectUser: the chosen row is the same object as the entry of `users` that the table shows (`dataSource.data = this.users`, perfil-usuario.component.ts:389). So in the source that entry of `users` also gets the DD-MM-YYYY date, and a later `handleUpdateUser` rewrites the same entry to YYYY-MM-DD and, on success, back to DD-MM-YYYY. Selecting that row again then parses the display form with `new Date`. The model keeps `users` as a value that neither method changes, so it does not capture this.
- `adminLogueado$` mirrors outside the profile page and the new-post form only copy a flag and are not modelled.
- Carousels.Carousel.SelectImagen: an index outside the list throws a `TypeError` after the index is set. The model gives no dialog and does not model the exception.
- Carousels.VideoCarrusel.SelectImagen: likewise, an index outside the list sets the index and then throws a `TypeError` when reading `srcVideo`. The model gives no dialog and does not model the exception.
- CreateSala.CreateSalaForm.OnGenreSelected: the `TypeError` for a day without a group is the `failed` result, with the state unchanged.
- AuthComponent.MinBeforeMax: it is stated from year 170 on. Earlier current years run into the 0–99 year mapping of `new Date`.
- PerfilUsuario.UpdateRoundTrip: it is stated for years from 0 on. A negative year breaks the `split('-')`, as `Dates.SubmissionOfNegativeYear` shows.
