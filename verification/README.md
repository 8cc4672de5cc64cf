# BabyCare core in Dafny

A model of the sequential logic under the BabyCare Android app (Kotlin,
Jetpack Compose, Retrofit). It covers these parts:

- the `BabySex` wire codec;
- the encrypted session store, which holds the bearer token and a cached
  copy of the signed-in parent;
- the interceptor that adds the bearer header;
- the baby and development-tip repository mappings;
- the view-model flows for sign-in, both registration variants, adding a
  baby and the profile;
- the validators and input filters of the sign-in, registration and
  add-baby screens.

Every view-model action is one sequential step. It takes the UI state, the
session store and the replies of the repositories it calls, and returns a
`Run`. A `Run` holds the new UI state, the new store and the ordered
effects of the action: UI updates, session writes, repository calls
together with their arguments, and emitted events (module `Effects`).

Each multi-stage flow also has reference functions. `LoginEvents`,
`LoginUi` and `LoginStore` say what a whole sign-in attempt is meant to
produce, and the `Register*` functions do the same for a registration. The
stage methods are proved to produce exactly that. The reference functions
follow the same branches as the stages, so that equality mostly shows that
the effect traces are assembled correctly; it does not restate the intent
independently. The independent claims about a whole attempt are the
lemmas over the references: `LoginViewModel.LoginNavigatesOnce`,
`RegisterViewModel.RegisterOutcome` and the `ParentFailureKeepsToken`
lemmas.

Each screen validator is two things:

- a function over the parsed field values (`Judge`);
- an ordered list of checks (`Checks`).

Lemmas prove that the validator returns the first failing check's message.
Other lemmas prove what the input filters let through, from the blank form
and under any sequence of edits.

Files, one module each:

- `wrappers.dfy`: `Option`, and `Result` for `kotlin.Result`.
- `text.dfy`: ASCII `trim`, `isDigit`, `toIntOrNull` and `uppercase`,
  and `length` in UTF-16 code units.
- `baby_sex.dfy`: the codec.
- `domain.dfy`: domain records and DTOs.
- `token_store.dfy`: the session store.
- `auth_interceptor.dfy`: the interceptor.
- `baby_repository.dfy` and `devtips_repository.dfy`: the repositories.
- `effects.dfy`: effect traces.
- `login_vm.dfy`, `register_vm.dfy`, `legacy_register_vm.dfy`,
  `add_baby_vm.dfy` and `profile_vm.dfy`: the view-models.
- `form_rules.dfy`, `login_form.dfy`, `register_form.dfy` and
  `add_baby_form.dfy`: the screens' validators and filters.

## Model

| member | source | states |
|---|---|---|
| BabySexCodec.Code | app/src/main/java/com/app/babycare/domain/model/Baby.kt:14-17 | each sex has a one-character upper-case wire code |
| BabySexCodec.FromString | app/src/main/java/com/app/babycare/domain/model/Baby.kt:21-29 | decoding is total: an absent value gives `OTHER`; the result is `MALE` exactly for "M"/"m", `FEMALE` exactly for "F"/"f", and `OTHER` for everything else |
| BabySexCodec.RoundTrip | app/src/main/java/com/app/babycare/domain/model/Baby.kt:14-27 | `fromString(s.value) == s` for every sex |
| BabySexCodec.CodeInjective | app/src/main/java/com/app/babycare/domain/model/Baby.kt:15-17 | distinct sexes have distinct codes |
| BabySexCodec.CaseInsensitive | app/src/main/java/com/app/babycare/domain/model/Baby.kt:23-27 | upper-casing the input first never changes the decoded sex |
| BabySexCodec.UnknownIsOther | app/src/main/java/com/app/babycare/domain/model/Baby.kt:22-27 | any string, "" included, whose upper-case form is neither "M" nor "F" decodes to `OTHER` |
| Text.Upper | app/src/main/java/com/app/babycare/domain/model/Baby.kt:23 | `uppercase()` keeps the length and maps each ASCII lower-case letter to its capital, leaving other characters alone |
| Text.ParseInt | app/src/main/java/com/app/babycare/ui/compose/AddBabyScreen.kt:95 | `toIntOrNull` accepts only a non-empty digit string, optionally signed, whose value fits a 32-bit `Int`; a non-empty unsigned string with a non-digit gives null |
| Text.ParseShowNat | app/src/main/java/com/app/babycare/ui/compose/RegisterScreen.kt:138 | parsing the decimal rendering of any value an `Int` can hold gives that value back |
| Text.Utf16LengthOfEmoji | app/src/main/java/com/app/babycare/ui/compose/LoginScreen.kt:97 | Kotlin's `length` counts UTF-16 code units: three emoji are three characters but six units |
| Text.Utf16LengthOfDigits | app/src/main/java/com/app/babycare/ui/compose/RegisterScreen.kt:262 | on digit text the UTF-16 length is the character count, so the digit filters' length limits count characters |
| Text.TrimIdempotent | app/src/main/java/com/app/babycare/ui/viewmodel/RegisterViewModel.kt:46-48 | trimming text that is already trimmed changes nothing |
| Session.GetUser | app/src/main/java/com/app/babycare/data/auth/EncryptedTokenStore.kt:55-66 | no user without the id key; a user read back has an id other than -1 and a non-empty name and email, each equal to what the keys hold |
| Session.SaveToken | app/src/main/java/com/app/babycare/data/auth/EncryptedTokenStore.kt:35-41 | the token reads back; the cached user is unchanged |
| Session.ClearToken | app/src/main/java/com/app/babycare/data/auth/EncryptedTokenStore.kt:39-45 | no token afterwards; the cached user is unchanged |
| Session.SaveUser | app/src/main/java/com/app/babycare/data/auth/EncryptedTokenStore.kt:47-66 | all three keys are written; the user reads back, exactly as saved, if and only if the id is not -1 and the name and email are non-empty; the token is unchanged |
| Session.ClearUser | app/src/main/java/com/app/babycare/data/auth/EncryptedTokenStore.kt:68-74 | the three user keys are removed, no user reads back, and the token is unchanged |
| Session.ClearSession | app/src/main/java/com/app/babycare/data/auth/EncryptedTokenStore.kt:76-79 | neither a token nor a user remains |
| Session.SaveTokenOverwrites | app/src/main/java/com/app/babycare/data/auth/EncryptedTokenStore.kt:35-37 | a later `saveToken` replaces an earlier one entirely |
| Session.SaveUserOverwrites | app/src/main/java/com/app/babycare/data/auth/EncryptedTokenStore.kt:47-53 | a later `saveUser` replaces an earlier one entirely |
| Session.FreshSession | app/src/main/java/com/app/babycare/data/auth/EncryptedTokenStore.kt:35-79 | after clear, save-token and save-user, the store holds exactly the new token and user values, so nothing of the earlier session can be read back |
| AuthInterceptor.Intercept | app/src/main/java/com/app/babycare/data/auth/AuthInterceptor.kt:12-23 | a null or empty token leaves the request unchanged; a token holding a character other than tab and printable ASCII makes `addHeader` throw, so nothing is sent; any other token appends one `Authorization` header after the original headers, all of which are kept; its value is `Bearer <token>` trimmed, as OkHttp stores header values trimmed |
| AuthInterceptor.InterceptAddsOneAuthorization | app/src/main/java/com/app/babycare/data/auth/AuthInterceptor.kt:15-18 | with a non-empty token the request goes out exactly when the token is a valid header value, and then with exactly one more `Authorization` header while every other header name keeps its count |
| AuthInterceptor.BearerValueCarriesToken | app/src/main/java/com/app/babycare/data/auth/AuthInterceptor.kt:17 | for a token that does not end in a space or tab, the added value is the `Bearer ` prefix followed by the token, so the token can be read back from it |
| AuthInterceptor.TrailingBlanksDropped | app/src/main/java/com/app/babycare/data/auth/AuthInterceptor.kt:17 | OkHttp's trimming drops a token's trailing blanks: "abc " is sent as `Bearer abc`, and a token of blanks as `Bearer` |
| AuthInterceptor.InterceptAfterSessionChanges | app/src/main/java/com/app/babycare/data/auth/AuthInterceptor.kt:14-21 | after `clearSession` requests go out unchanged; after `saveToken(t)` with a non-empty `t` they carry `Bearer t`, trimmed, when `t` is a valid header value and are not sent otherwise |
| AuthInterceptor.UnsafeTokensRejected | app/src/main/java/com/app/babycare/data/auth/AuthInterceptor.kt:17 | a token with a line break, or with a non-ASCII letter, stops every request |
| Domain.ReplyMessage | app/src/main/java/com/app/babycare/remote/repository/BabyRepositoryImpl.kt:80 | the reply's "message" when present, else the default |
| BabyRepository.ToDomain | app/src/main/java/com/app/babycare/remote/repository/BabyRepositoryImpl.kt:87-98 | every field is copied unchanged and the sex is decoded with `fromString` |
| BabyRepository.ToRequest | app/src/main/java/com/app/babycare/remote/repository/BabyRepositoryImpl.kt:45-52 | the request carries the data's fields, with the sex as its one-letter code |
| BabyRepository.EchoRoundTrip | app/src/main/java/com/app/babycare/remote/repository/BabyRepositoryImpl.kt:43-58 | if the server echoes the request, the baby returned carries exactly the data sent, sex included |
| BabyRepository.ToDomainList | app/src/main/java/com/app/babycare/remote/repository/BabyRepositoryImpl.kt:19 | the list is mapped element by element, keeping length and order |
| BabyRepository.GetAllBabies | app/src/main/java/com/app/babycare/remote/repository/BabyRepositoryImpl.kt:16-23 | a failure passes through with its message; a success is the element-wise mapped list |
| BabyRepository.GetBabyById | app/src/main/java/com/app/babycare/remote/repository/BabyRepositoryImpl.kt:25-32 | a failure passes through with its message; a success is the mapped reply |
| BabyRepository.GetBabiesByParentId | app/src/main/java/com/app/babycare/remote/repository/BabyRepositoryImpl.kt:34-41 | the parent's id is sent; a failure passes through with its message; a success is the mapped list, in order |
| BabyRepository.CreateBaby | app/src/main/java/com/app/babycare/remote/repository/BabyRepositoryImpl.kt:43-58 | the request built from the data is sent; a failure passes through with its message; a success is the mapped reply, and an echoed reply yields a baby with the data sent |
| BabyRepository.UpdateBaby | app/src/main/java/com/app/babycare/remote/repository/BabyRepositoryImpl.kt:60-75 | as `createBaby`, addressed to the baby's id: a success is the mapped reply, and an echo carries the data sent |
| BabyRepository.DeleteBaby | app/src/main/java/com/app/babycare/remote/repository/BabyRepositoryImpl.kt:77-84 | a failure passes through; a success is the reply's "message" or "Baby deleted successfully" |
| DevTipsRepository.ToDomain | app/src/main/java/com/app/babycare/remote/repository/DevTipsRepositoryImpl.kt:71-79 | every field is copied unchanged |
| DevTipsRepository.ToRequest | app/src/main/java/com/app/babycare/remote/repository/DevTipsRepositoryImpl.kt:35-39 | the request carries the data's age, category and description |
| DevTipsRepository.EchoRoundTrip | app/src/main/java/com/app/babycare/remote/repository/DevTipsRepositoryImpl.kt:33-45 | a tip stored as sent reads back as the data sent |
| DevTipsRepository.ToDomainList | app/src/main/java/com/app/babycare/remote/repository/DevTipsRepositoryImpl.kt:18 | element-wise mapping, keeping length and order |
| DevTipsRepository.GetAllDevTips | app/src/main/java/com/app/babycare/remote/repository/DevTipsRepositoryImpl.kt:15-22 | a failure passes through with its message; a success is the mapped list |
| DevTipsRepository.GetDevTipById | app/src/main/java/com/app/babycare/remote/repository/DevTipsRepositoryImpl.kt:24-31 | a failure passes through with its message; a success is the mapped reply |
| DevTipsRepository.CreateDevTip | app/src/main/java/com/app/babycare/remote/repository/DevTipsRepositoryImpl.kt:33-45 | the request built from the data is sent; a success is the reply's "message" or the fixed creation notice |
| DevTipsRepository.UpdateDevTip | app/src/main/java/com/app/babycare/remote/repository/DevTipsRepositoryImpl.kt:47-59 | as create, with the update notice |
| DevTipsRepository.DeleteDevTip | app/src/main/java/com/app/babycare/remote/repository/DevTipsRepositoryImpl.kt:61-68 | a success is the reply's "message" or the deletion notice |
| LoginViewModel.Login | app/src/main/java/com/app/babycare/ui/viewmodel/LoginViewModel.kt:47-68 | the attempt starts loading without an error, then authenticates with the trimmed email; the final UI state, store and events are those of the whole-attempt reference; a rejected sign-in writes nothing; an accepted one clears the session and saves the token before looking the parent up by the untrimmed email, then caches the parent before looking up its babies by its id |
| LoginViewModel.ShowError | app/src/main/java/com/app/babycare/ui/viewmodel/LoginViewModel.kt:61-65 | the failure branch stops loading, keeps the message as the error and emits it once, with no session write |
| LoginViewModel.StartSession | app/src/main/java/com/app/babycare/ui/viewmodel/LoginViewModel.kt:53-59 | clear-session and then save-token come before the parent lookup |
| LoginViewModel.GetParentInfoAndProceed | app/src/main/java/com/app/babycare/ui/viewmodel/LoginViewModel.kt:70-89 | the parent is looked up by the email given; on success it is cached and its babies are looked up by its id; on failure the message (or "Error de red") is shown and nothing is written |
| LoginViewModel.CacheParentAndProceed | app/src/main/java/com/app/babycare/ui/viewmodel/LoginViewModel.kt:73-80 | a `saveUser` that throws leaves the store unchanged, and the baby lookup still runs with `parent.id` |
| LoginViewModel.GetBabiesForUser | app/src/main/java/com/app/babycare/ui/viewmodel/LoginViewModel.kt:91-109 | loading stops, and there is one navigation (to baby registration for an empty list, home otherwise) or one error message; the store is untouched |
| LoginViewModel.NavigateToRegisterScreen | app/src/main/java/com/app/babycare/ui/viewmodel/LoginViewModel.kt:111-113 | only the `NavigateToRegister` event; state and store are untouched |
| LoginViewModel.ClearError | app/src/main/java/com/app/babycare/ui/viewmodel/LoginViewModel.kt:115-117 | only the error is reset |
| LoginViewModel.LoginNavigatesOnce | app/src/main/java/com/app/babycare/ui/viewmodel/LoginViewModel.kt:47-109 | an attempt emits exactly one event. It opens exactly one screen if and only if all three stages succeed, and then ends idle without error. Otherwise the one event is a message that the UI keeps as its error |
| LoginViewModel.ParentFailureKeepsToken | app/src/main/java/com/app/babycare/ui/viewmodel/LoginViewModel.kt:55-86 | a failed parent lookup leaves the new token saved and no user cached (no rollback) |
| LoginViewModel.SignedInSession | app/src/main/java/com/app/babycare/ui/viewmodel/LoginViewModel.kt:55-80 | once the parent is found, the session holds the new token and exactly the new parent (when `getUser` accepts it), or no user if caching threw |
| RegisterViewModel.Register | app/src/main/java/com/app/babycare/ui/viewmodel/RegisterViewModel.kt:35-70 | loading starts and the error clears; the payload has name and email trimmed; the outcome is that of the whole-registration reference; a rejected registration writes nothing; an accepted one clears the session and saves the token before the parent lookup by the untrimmed email |
| RegisterViewModel.Send | app/src/main/java/com/app/babycare/ui/viewmodel/RegisterViewModel.kt:43-69 | the same, for a payload already built |
| RegisterViewModel.RequestIdempotent | app/src/main/java/com/app/babycare/ui/viewmodel/RegisterViewModel.kt:46-53 | building the payload from a payload gives it back unchanged |
| RegisterViewModel.ShowError | app/src/main/java/com/app/babycare/ui/viewmodel/RegisterViewModel.kt:63-67 | the failure branch stops loading, keeps the message and emits it once, with no session write |
| RegisterViewModel.StartSession | app/src/main/java/com/app/babycare/ui/viewmodel/RegisterViewModel.kt:55-62 | clear-session and then save-token come before the parent fetch |
| RegisterViewModel.FetchAndSaveParentThenNavigate | app/src/main/java/com/app/babycare/ui/viewmodel/RegisterViewModel.kt:72-91 | a found parent is cached best-effort, loading stops and `NavigateToAddBaby` is emitted; otherwise the message (or the fixed one) is shown and nothing is written |
| RegisterViewModel.ClearError | app/src/main/java/com/app/babycare/ui/viewmodel/RegisterViewModel.kt:93 | only the error is reset |
| RegisterViewModel.RegisterOutcome | app/src/main/java/com/app/babycare/ui/viewmodel/RegisterViewModel.kt:54-88 | exactly one event. It is `NavigateToAddBaby` if and only if registration and lookup both succeed, and then the flow ends idle without error. Otherwise it is a message kept as the error. The flow never opens the sign-in screen |
| RegisterViewModel.ParentFailureKeepsToken | app/src/main/java/com/app/babycare/ui/viewmodel/RegisterViewModel.kt:57-87 | a failed parent lookup leaves the token saved and no user cached |
| LegacyRegisterViewModel.Register | app/src/main/java/com/app/babycareia/ui/viewmodel/RegisterViewModel.kt:30-55 | the payload is sent after loading starts; nothing is written to any session store; `NavigateToLogin` is the event if and only if the registration succeeds, and then no error remains; on failure the message (or "Error al registrarse") is kept and shown |
| LegacyRegisterViewModel.ClearError | app/src/main/java/com/app/babycareia/ui/viewmodel/RegisterViewModel.kt:57 | only the error is reset |
| LegacyRegisterViewModel.RequestSex | app/src/main/java/com/app/babycareia/ui/viewmodel/RegisterViewModel.kt:35-42 | a payload built without a sex carries "O" and one built with a sex carries it unchanged; rebuilding a payload from what was sent gives it back |
| AddBabyViewModel.CachedUserId | app/src/main/java/com/app/babycare/ui/viewmodel/AddBabyViewModel.kt:42 | the id of the cached user, present exactly when `getUser` returns a user |
| AddBabyViewModel.Init | app/src/main/java/com/app/babycare/ui/viewmodel/AddBabyViewModel.kt:31-43 | default UI state; the current parent is the cached user's id |
| AddBabyViewModel.RefreshCurrentParent | app/src/main/java/com/app/babycare/ui/viewmodel/AddBabyViewModel.kt:46-48 | re-reads the id and leaves the UI state alone |
| AddBabyViewModel.CurrentParentFollowsSession | app/src/main/java/com/app/babycare/ui/viewmodel/AddBabyViewModel.kt:42-48 | after a valid `saveUser` the current parent is that id; after `clearSession` there is none |
| AddBabyViewModel.ResolveParent | app/src/main/java/com/app/babycare/ui/viewmodel/AddBabyViewModel.kt:61 | the explicit parent when given, otherwise the current one |
| AddBabyViewModel.SaveBaby | app/src/main/java/com/app/babycare/ui/viewmodel/AddBabyViewModel.kt:50-90 | starting resets only loading and error, so an earlier `success` survives; without a parent nothing is called and the fixed error is kept and shown; otherwise `createBaby` gets the resolved parent and the other arguments unchanged, and the outcome follows the reply |
| AddBabyViewModel.CreateAndReport | app/src/main/java/com/app/babycare/ui/viewmodel/AddBabyViewModel.kt:68-88 | one `createBaby` call with the data, then the UI and events of the reply, with no session write |
| AddBabyViewModel.CreateOutcome | app/src/main/java/com/app/babycare/ui/viewmodel/AddBabyViewModel.kt:77-88 | `NavigateToHome` is emitted if and only if the creation succeeds, right after the confirmation; `success` becomes true only then and is otherwise kept; a failure keeps its message as the error |
| AddBabyViewModel.ClearError | app/src/main/java/com/app/babycare/ui/viewmodel/AddBabyViewModel.kt:92-94 | only the error is reset |
| ProfileViewModel.LoadParent | app/src/main/java/com/app/babycare/ui/viewmodel/ProfileViewModel.kt:32-70 | loading starts with no error; without a cached user the repository is not called; with one it is called once, with that user's email; no events or session writes |
| ProfileViewModel.Init | app/src/main/java/com/app/babycare/ui/viewmodel/ProfileViewModel.kt:28-30 | construction runs one load from the initial state |
| ProfileViewModel.Refresh | app/src/main/java/com/app/babycare/ui/viewmodel/ProfileViewModel.kt:72-74 | `refresh` runs the same load from the current state |
| ProfileViewModel.ClearError | app/src/main/java/com/app/babycare/ui/viewmodel/ProfileViewModel.kt:76-78 | only the error is reset |
| ProfileViewModel.RefreshIdempotent | app/src/main/java/com/app/babycare/ui/viewmodel/ProfileViewModel.kt:72-74 | with the store and backend unchanged, a refresh leaves the screen as the first load did |
| ProfileViewModel.LoadOutcome | app/src/main/java/com/app/babycare/ui/viewmodel/ProfileViewModel.kt:37-68 | loading always ends; the error is cleared if and only if a user is cached and the lookup succeeds, and the parent found is then shown; on an error the parent shown before is kept |
| ProfileViewModel.LoadsSignedInUser | app/src/main/java/com/app/babycare/ui/viewmodel/ProfileViewModel.kt:37-50 | after a valid `saveUser`, the profile is looked up by that user's email |
| FormRules.FirstFailureFromFinds | app/src/main/java/com/app/babycare/ui/compose/LoginScreen.kt:82-102 | the checks from an index on report nothing if and only if all of them pass, and otherwise the message of a failing check whose predecessors all pass |
| FormRules.FirstFailureFinds | app/src/main/java/com/app/babycare/ui/compose/RegisterScreen.kt:121-154 | the same over a whole check list |
| LoginForm.ValidateLoginFields | app/src/main/java/com/app/babycare/ui/compose/LoginScreen.kt:82-102 | each message is returned exactly when its check is the first to fail: blank user, an email the pattern rejects, an empty password, a password of 1 to 5 UTF-16 code units (Kotlin's `length`, so an emoji counts twice); nothing exactly when all pass |
| LoginForm.ValidateIsFirstFailure | app/src/main/java/com/app/babycare/ui/compose/LoginScreen.kt:82-102 | the validator equals the first failure of its four checks in order |
| LoginForm.Submit | app/src/main/java/com/app/babycare/ui/compose/LoginScreen.kt:245-256 | `onLogin` is called if and only if validation passes, with the trimmed username and the untrimmed password |
| LoginForm.EmojiPasswordAccepted | app/src/main/java/com/app/babycare/ui/compose/LoginScreen.kt:97 | a password of three emoji (six UTF-16 code units) passes the length rule once the user field is accepted |
| LoginForm.SubmittedArgsValid | app/src/main/java/com/app/babycare/ui/compose/LoginScreen.kt:254 | what is sent passes validation again: a trimmed, accepted email and a password of six or more UTF-16 code units, so the view-model's credentials and parent lookup see the same email |
| RegisterForm.RelationName | app/src/main/java/com/app/babycare/ui/compose/RegisterScreen.kt:339-349 | each menu entry is non-empty with no surrounding whitespace |
| RegisterForm.ValidateFields | app/src/main/java/com/app/babycare/ui/compose/RegisterScreen.kt:121-154 | the first failing check among name, email, phone, age, relation and password, in that order; nothing if and only if the trimmed name is non-empty, the email is accepted, the trimmed phone is ten UTF-16 code units long, the age parses above zero, the trimmed relation is non-empty and the password is six or more code units long |
| RegisterForm.JudgeIsFirstFailure | app/src/main/java/com/app/babycare/ui/compose/RegisterScreen.kt:121-154 | judging the read fields equals the first failure of the six checks in order |
| RegisterForm.Apply | app/src/main/java/com/app/babycare/ui/compose/RegisterScreen.kt:260-291 | phone and age edits are all-or-nothing: accepted exactly when the filter allows the whole new text |
| RegisterForm.ApplyConforms | app/src/main/java/com/app/babycare/ui/compose/RegisterScreen.kt:260-349 | every edit keeps phone and age within their filters and the relation empty or a menu entry |
| RegisterForm.ReachableConforms | app/src/main/java/com/app/babycare/ui/compose/RegisterScreen.kt:260-349 | the same holds after any sequence of edits |
| RegisterForm.ConformingValidation | app/src/main/java/com/app/babycare/ui/compose/RegisterScreen.kt:133-146 | on a conforming form, the phone check is an exact ten-digit length, the age check needs a non-empty value of at least one, and the relation check needs a menu choice |
| RegisterForm.Submit | app/src/main/java/com/app/babycare/ui/compose/RegisterScreen.kt:398-418 | `register` is called if and only if validation passes, with name, email, phone and relation trimmed, the password verbatim and the parsed age |
| RegisterForm.ConformingSubmit | app/src/main/java/com/app/babycare/ui/compose/RegisterScreen.kt:409-417 | from a conforming form the phone sent has ten digits, the age is 1..999 and the relation is a menu entry |
| RegisterForm.SubmittedPhone | app/src/main/java/com/app/babycare/ui/compose/RegisterScreen.kt:262 | the phone sent from a conforming form is exactly ten digits |
| RegisterForm.SubmittedAge | app/src/main/java/com/app/babycare/ui/compose/RegisterScreen.kt:409 | the age sent from a conforming form lies in 1..999 |
| RegisterForm.AgeBelowThousand | app/src/main/java/com/app/babycare/ui/compose/RegisterScreen.kt:288 | a filtered age that parses is below 1000 |
| RegisterForm.SubmittedRelation | app/src/main/java/com/app/babycare/ui/compose/RegisterScreen.kt:415 | the relation sent from a conforming form is a menu entry |
| RegisterForm.MenuChoiceTrimmed | app/src/main/java/com/app/babycare/ui/compose/RegisterScreen.kt:339-349 | a menu choice is its own trim |
| RegisterForm.RequestKeepsArgs | app/src/main/java/com/app/babycare/ui/compose/RegisterScreen.kt:409-417 | the view-model's second trim leaves what the button sends unchanged |
| RegisterForm.SubmittedArgs | app/src/main/java/com/app/babycare/ui/compose/RegisterScreen.kt:409-417 | from any form reachable from the blank one, what is sent has a ten-digit phone, an age of 1..999, a menu relation and a password of six or more UTF-16 code units |
| AddBabyForm.DecimalShapeIsPattern | app/src/main/java/com/app/babycare/ui/compose/AddBabyScreen.kt:291 | the left-to-right reading of the weight and height filters accepts exactly the strings the regular expression `^\d{0,m}(\.\d{0,n})?$` matches |
| AddBabyForm.ParseDecimalDefined | app/src/main/java/com/app/babycare/ui/compose/AddBabyScreen.kt:104-107 | filter-shaped text has no value exactly when it is empty or a lone point |
| AddBabyForm.ParseDecimalBelow | app/src/main/java/com/app/babycare/ui/compose/AddBabyScreen.kt:319 | the value of text with at most `m` whole digits lies in [0, 10^m) |
| AddBabyForm.ParseDecimalOfDigits | app/src/main/java/com/app/babycare/ui/compose/AddBabyScreen.kt:104 | on digits alone the decimal parse agrees with `toIntOrNull` |
| AddBabyForm.JudgeIsFirstFailure | app/src/main/java/com/app/babycare/ui/compose/AddBabyScreen.kt:88-127 | judging the read fields equals the first failure of the eight checks: name, age present, age range, weight present, weight range, height present, height range, sex |
| AddBabyForm.JudgeAccepts | app/src/main/java/com/app/babycare/ui/compose/AddBabyScreen.kt:88-127 | judging passes if and only if every rule holds |
| AddBabyForm.Validate | app/src/main/java/com/app/babycare/ui/compose/AddBabyScreen.kt:88-127 | `validateFields` is the first failure of its checks, and passes if and only if the name is non-blank, the age parses within 0..36, weight and height parse within [0,15] and [0,100], and a sex is chosen |
| AddBabyForm.Apply | app/src/main/java/com/app/babycare/ui/compose/AddBabyScreen.kt:257-321 | age, weight and height edits are all-or-nothing under their filters |
| AddBabyForm.ReachableConforms | app/src/main/java/com/app/babycare/ui/compose/AddBabyScreen.kt:257-321 | after any sequence of edits the fields keep to their filters |
| AddBabyForm.ConformingRanges | app/src/main/java/com/app/babycare/ui/compose/AddBabyScreen.kt:95-119 | on filtered fields the age has a value exactly when non-empty and lies in 0..99; weight and height have a value unless empty or a lone point, and lie below 100 and 1000 |
| AddBabyForm.AgeFilterAdmitsOutOfRange | app/src/main/java/com/app/babycare/ui/compose/AddBabyScreen.kt:99-101 | the age filter lets "40" through, and validation then rejects it with the range message |
| AddBabyForm.Submit | app/src/main/java/com/app/babycare/ui/compose/AddBabyScreen.kt:385-407 | `onSaveBaby` is called if and only if validation passes, with the trimmed non-empty name, the parsed age in 0..36, weight and height in range, and the chosen sex |
| AddBabyForm.SubmittedFromReachable | app/src/main/java/com/app/babycare/ui/compose/AddBabyScreen.kt:394-405 | from any reachable form, a save has a one- or two-digit age text, and weight and height texts of the filter's shape that are not a lone point |

## Left out

- Compose rendering, popups, navigation and back-stack handling, dependency
  injection and the Retrofit interfaces are not modelled: they are UI and
  library plumbing with no logic of their own to state.
- Coroutine mechanics are not modelled: `viewModelScope.launch` nesting,
  `StateFlow` observation and the `DROP_OLDEST` event buffer (which can
  drop events under load). Each flow is one sequential step.
- Encryption and the asynchronous `apply()` disk write are not modelled.
  The preference file is a synchronous in-memory map.
- `Session.GetUser` treats a value of the wrong type under a user key as
  absent, where Android's `getString`/`getInt` would throw a
  `ClassCastException`. The store only ever writes the right types, and
  `Session.Valid` states that this is preserved.
- Repository calls, `saveUser` failures and the backend are parameters:
  functions from the request to a `Result`, and a flag saying whether
  `saveUser` throws.
- The pass-through repositories (authentication, parent, health) and
  `HomeViewModel` (an unfinished stub) are not modelled.
- `AuthInterceptor.Intercept`: `None` stands for the exception OkHttp's
  `addHeader` throws on a rejected token. What OkHttp then does with the
  failed call is not modelled.
- `FormRules.IsValidEmail`: Android's `Patterns.EMAIL_ADDRESS` is a
  parameter `pattern`, not a regular expression.
- `Text.ParseInt`, `Text.Trim`, `Text.Upper`: Kotlin's `toIntOrNull`,
  `trim`, `isDigit` and `uppercase` are modelled for ASCII only. Other
  characters count as neither whitespace nor digits and are not
  upper-cased.
- `AddBabyForm.ParseDecimal`: `toFloatOrNull` is modelled only on text of
  digits and at most one point, the only text the weight and height
  filters let through. Its value is exact rather than a rounded `Float`.
  Signs, exponents, `NaN` and `Infinity` give no value here.
- One might expect the token and the cached user to be present together.
  The code does not keep that: a failed parent lookup after a
  successful sign-in or registration leaves the token saved and no user
  cached. The model follows the code
  (`LoginViewModel.ParentFailureKeepsToken`,
  `RegisterViewModel.ParentFailureKeepsToken`).
- `Domain.RegisterData` has no `sex` field. `AuthRepositoryImpl.kt` passes
  `data.sex` on to the request, but `register` never sets it, so it always
  holds the class's default. The file declaring that default is not part
  of this model.
- `Domain.Parent.id` is an `int`. The source declares it a `String` but
  passes it to `saveUser(id: Int, …)` and `getBabiesForUser(userId: Int)`.
